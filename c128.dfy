/**
 * The parts of the Commodore 128 that the menu program talks to: the
 * memory-mapped I/O space seen through PEEK and POKE, the keyboard as seen
 * through cgetc, and the centring arithmetic of the text screen.
 *
 * The I/O space is modelled by the accesses made to it. Every POKE is a
 * `Store`, every PEEK a `Load` carrying the byte the hardware answered. The
 * hardware's answers are never computed here: callers supply them.
 */
module C128 {

  datatype Option<T> = None | Some(value: T)

  /** An unsigned char. */
  type byte = x: int | 0 <= x < 256

  /** The keys the menu screens react to; every other key code is `Other`. */
  datatype Key = CursorUp | CursorDown | Return | F1 | F2 | F8 | Other(code: byte)

  /** One CPU access to an address of the I/O space. */
  datatype Access = Store(addr: int, value: byte) | Load(addr: int, value: byte)

  /** The value each address holds after `t`, starting from latches `m`: the last store wins. */
  function Replay(m: map<int, byte>, t: seq<Access>): map<int, byte>
  {
    if t == [] then m
    else
      var before := Replay(m, t[..|t| - 1]);
      match t[|t| - 1]
      case Store(a, v) => before[a := v]
      case Load(_, _) => before
  }

  /** The values stored at `addr` by `t`, in the order they were stored. */
  function WritesTo(t: seq<Access>, addr: int): seq<byte>
  {
    if t == [] then []
    else
      var before := WritesTo(t[..|t| - 1], addr);
      match t[|t| - 1]
      case Store(a, v) => if a == addr then before + [v] else before
      case Load(_, _) => before
  }

  /** True when no access of `t` stores to `addr`. */
  predicate NoStoreTo(t: seq<Access>, addr: int)
  {
    forall k :: 0 <= k < |t| && t[k].Store? ==> t[k].addr != addr
  }

  lemma AppendAssoc<T>(a: seq<T>, b: seq<T>, c: seq<T>)
    ensures a + (b + c) == a + b + c
  {
  }

  lemma {:induction false} ReplayAppend(m: map<int, byte>, a: seq<Access>, b: seq<Access>)
    ensures Replay(m, a + b) == Replay(Replay(m, a), b)
  {
    if b == [] {
      assert a + b == a;
    } else {
      assert (a + b)[..|a + b| - 1] == a + b[..|b| - 1];
      ReplayAppend(m, a, b[..|b| - 1]);
    }
  }

  lemma {:induction false} WritesToAppend(a: seq<Access>, b: seq<Access>, addr: int)
    ensures WritesTo(a + b, addr) == WritesTo(a, addr) + WritesTo(b, addr)
  {
    if b == [] {
      assert a + b == a;
    } else {
      assert (a + b)[..|a + b| - 1] == a + b[..|b| - 1];
      WritesToAppend(a, b[..|b| - 1], addr);
    }
  }

  lemma {:induction false} NoStoreWritesNothing(t: seq<Access>, addr: int)
    requires NoStoreTo(t, addr)
    ensures WritesTo(t, addr) == []
  {
    if t != [] {
      NoStoreWritesNothing(t[..|t| - 1], addr);
    }
  }

  lemma WritesToSnoc(t: seq<Access>, x: Access, addr: int)
    ensures WritesTo(t + [x], addr) == WritesTo(t, addr) + (if x.Store? && x.addr == addr then [x.value] else [])
  {
    assert (t + [x])[..|t|] == t;
  }

  lemma WritesToOne(x: Access, addr: int)
    ensures WritesTo([x], addr) == if x.Store? && x.addr == addr then [x.value] else []
  {
    assert [x][..0] == [];
  }

  // ---------------------------------------------------------------------------
  // Bitwise operators of C on unsigned values

  function Pow2(n: nat): (p: nat)
    ensures p >= 1
  {
    if n == 0 then 1 else 2 * Pow2(n - 1)
  }

  /** Bit `i` of the unsigned value `x`. */
  function Bit(x: nat, i: nat): (b: nat)
    ensures b <= 1
  {
    (x / Pow2(i)) % 2
  }

  /** `a & b`, built from the lowest bit up: that bit is 1 when both lowest bits are. */
  function And(a: nat, b: nat): nat
    decreases a + b
  {
    if a == 0 || b == 0 then 0
    else 2 * And(a / 2, b / 2) + (a % 2 + b % 2) / 2
  }

  /** `a | b`, built from the lowest bit up: that bit is 1 when either lowest bit is. */
  function Or(a: nat, b: nat): nat
    decreases a + b
  {
    if a == 0 then b
    else if b == 0 then a
    else 2 * Or(a / 2, b / 2) + (a % 2 + b % 2 + 1) / 2
  }

  /** `a & b` stored into an unsigned char. */
  function BitAnd(a: nat, b: nat): byte
  {
    And(a, b) % 256
  }

  /** `a | b` stored into an unsigned char. */
  function BitOr(a: nat, b: nat): byte
  {
    Or(a, b) % 256
  }

  lemma {:induction false} MulAtLeast(d: nat, k: nat)
    requires k >= 1
    ensures d * k >= d
  {
    if k > 1 {
      MulAtLeast(d, k - 1);
      assert d * k == d * (k - 1) + d;
    }
  }

  /** Division and remainder by `d` are determined by any decomposition `x == d * m + r` with `0 <= r < d`. */
  lemma DivModUnique(x: int, d: int, m: int, r: int)
    requires 0 < d && 0 <= r < d && x == d * m + r
    ensures x / d == m && x % d == r
  {
    var m', r' := x / d, x % d;
    assert d * m' + r' == d * m + r;
    if m' > m {
      MulAtLeast(d, m' - m);
      assert false;
    } else if m' < m {
      MulAtLeast(d, m - m');
      assert false;
    }
  }

  /** Appending bit `b` below `q` shifts every bit of `q` one place up. */
  lemma ShiftIn(q: nat, b: nat, i: nat)
    requires b <= 1
    ensures (2 * q + b) / (2 * Pow2(i)) == q / Pow2(i)
    ensures (2 * q + b) % (2 * Pow2(i)) == 2 * (q % Pow2(i)) + b
  {
    var p := Pow2(i);
    var m, r := q / p, q % p;
    assert 2 * q + b == (2 * p) * m + (2 * r + b);
    DivModUnique(2 * q + b, 2 * p, m, 2 * r + b);
  }

  /** Bit 0 of `2q + b` is `b`, and bit `i + 1` of it is bit `i` of `q`. */
  lemma BitOfDouble(q: nat, b: nat, i: nat)
    requires b <= 1
    ensures Bit(2 * q + b, 0) == b
    ensures i > 0 ==> Bit(2 * q + b, i) == Bit(q, i - 1)
  {
    if i > 0 {
      ShiftIn(q, b, i - 1);
    }
  }

  /** Bit `i` of `a & b` is set exactly when it is set in both operands. */
  lemma {:induction false} AndBit(a: nat, b: nat, i: nat)
    ensures Bit(And(a, b), i) == Bit(a, i) * Bit(b, i)
    decreases a + b
  {
    if a == 0 || b == 0 {
      assert Bit(0, i) == 0;
    } else {
      BitOfDouble(And(a / 2, b / 2), (a % 2 + b % 2) / 2, i);
      BitOfDouble(a / 2, a % 2, i);
      BitOfDouble(b / 2, b % 2, i);
      if i > 0 {
        AndBit(a / 2, b / 2, i - 1);
      }
    }
  }

  /** Bit `i` of `a | b` is set exactly when it is set in either operand. */
  lemma {:induction false} OrBit(a: nat, b: nat, i: nat)
    ensures Bit(Or(a, b), i) == if Bit(a, i) == 1 || Bit(b, i) == 1 then 1 else 0
    decreases a + b
  {
    if a == 0 {
      assert Bit(0, i) == 0;
    } else if b == 0 {
      assert Bit(0, i) == 0;
    } else {
      BitOfDouble(Or(a / 2, b / 2), (a % 2 + b % 2 + 1) / 2, i);
      BitOfDouble(a / 2, a % 2, i);
      BitOfDouble(b / 2, b % 2, i);
      if i > 0 {
        OrBit(a / 2, b / 2, i - 1);
      }
    }
  }

  /** Masking with `2^k - 1` keeps the value modulo `2^k`. */
  lemma {:induction false} AndLowMask(x: nat, k: nat)
    ensures And(x, Pow2(k) - 1) == x % Pow2(k)
  {
    if k > 0 && x > 0 {
      var p := Pow2(k - 1);
      var mask := Pow2(k) - 1;
      assert mask == 2 * (p - 1) + 1;
      assert mask / 2 == p - 1 && mask % 2 == 1;
      assert And(x, mask) == 2 * And(x / 2, p - 1) + x % 2;
      AndLowMask(x / 2, k - 1);
      ShiftIn(x / 2, x % 2, k - 1);
      assert 2 * (x / 2) + x % 2 == x;
      assert x % (2 * p) == 2 * ((x / 2) % p) + x % 2;
      assert Pow2(k) == 2 * p;
    } else if k == 0 {
      assert Pow2(k) - 1 == 0;
    } else {
      assert x == 0;
    }
  }

  /** Masking with the single bit `2^j` keeps that bit alone. */
  lemma {:induction false} AndSingleBit(x: nat, j: nat)
    ensures And(x, Pow2(j)) == Pow2(j) * Bit(x, j)
  {
    if x == 0 {
      assert Bit(0, j) == 0;
    } else if j == 0 {
      assert And(x / 2, 0) == 0;
    } else {
      var p := Pow2(j - 1);
      assert Pow2(j) / 2 == p && Pow2(j) % 2 == 0;
      assert And(x, Pow2(j)) == 2 * And(x / 2, p);
      AndSingleBit(x / 2, j - 1);
      assert x == 2 * (x / 2) + x % 2;
      BitOfDouble(x / 2, x % 2, j);
      assert Bit(x, j) == Bit(x / 2, j - 1);
    }
  }

  /** Or-ing a value below `2^k` into a multiple of `2^k` adds it. */
  lemma {:induction false} OrIntoZeroBits(x: nat, y: nat, k: nat)
    requires x % Pow2(k) == 0 && y < Pow2(k)
    ensures Or(x, y) == x + y
  {
    if k > 0 && x > 0 && y > 0 {
      var p := Pow2(k - 1);
      assert Pow2(k) == 2 * p;
      ShiftIn(x / 2, x % 2, k - 1);
      assert x % 2 == 0 && (x / 2) % p == 0;
      OrIntoZeroBits(x / 2, y / 2, k - 1);
    }
  }

  /**
   * The latch of an address holds the last value stored there; an address
   * that `t` never stores to keeps whatever it held before.
   */
  lemma {:induction false} LatchedIsLastWrite(m: map<int, byte>, t: seq<Access>, addr: int)
    ensures var w := WritesTo(t, addr);
            if w == [] then (addr in Replay(m, t) <==> addr in m) && (addr in m ==> Replay(m, t)[addr] == m[addr])
            else addr in Replay(m, t) && Replay(m, t)[addr] == w[|w| - 1]
  {
    if t != [] {
      LatchedIsLastWrite(m, t[..|t| - 1], addr);
    }
  }

  /**
   * The I/O space as the CPU sees it: the trace of every access so far and,
   * for each address stored to, the value last stored (its latch).
   */
  class Bus {
    ghost const initial: map<int, byte>
    var trace: seq<Access>

    /** The latch of every address stored to so far: the value last stored there. */
    ghost function Latched(): map<int, byte>
      reads this
    {
      Replay(initial, trace)
    }

    constructor (initial: map<int, byte>)
      ensures this.initial == initial && trace == []
      ensures Latched() == initial
    {
      this.initial := initial;
      trace := [];
    }

    /** POKE(addr, value). */
    method Poke(addr: int, value: byte)
      modifies this
      ensures trace == old(trace) + [Store(addr, value)]
    {
      trace := trace + [Store(addr, value)];
    }

    /** PEEK(addr); `answer` is what the hardware puts on the data bus. */
    method Peek(addr: int, answer: byte) returns (value: byte)
      modifies this
      ensures value == answer
      ensures trace == old(trace) + [Load(addr, answer)]
    {
      trace := trace + [Load(addr, answer)];
      value := answer;
    }
  }

  /**
   * The column both screens pass to gotoxy for their titles, the one that
   * centres a 20-character title: `(width - 20) / 2`,
   * computed in C's int (division truncates toward zero) and handed to
   * gotoxy as an unsigned char.
   */
  function TitleColumn(width: int): (x: int)
    requires 0 <= width < 256
    ensures 0 <= x < 256
    ensures width >= 20 ==> x + 20 + x <= width <= x + 20 + x + 1
    ensures width == 40 ==> x == 10
    ensures width == 80 ==> x == 30
  {
    var d := width - 20;
    var q := if d >= 0 then d / 2 else -((-d) / 2);
    q % 256
  }
}
