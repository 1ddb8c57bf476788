/** Decimal spellings, and zero padding that makes text order numeric order. */
module Decimal {
  import opened Text

  function Digit(d: nat): char
    requires d < 10
  {
    ('0' as int + d) as char
  }

  function Spell(n: nat): string {
    if n < 10 then [Digit(n)] else Spell(n / 10) + [Digit(n % 10)]
  }

  /** The last `width` digits, with leading zeros. */
  function Pad(n: nat, width: nat): (s: string)
    ensures |s| == width
    decreases width
  {
    if width == 0 then "" else Pad(n / 10, width - 1) + [Digit(n % 10)]
  }

  function Power(width: nat): nat { if width == 0 then 1 else 10 * Power(width - 1) }

  /** A number is below ten to the length of its spelling. */
  lemma {:induction false} SpellBound(n: nat)
    ensures n < Power(|Spell(n)|)
  {
    if n >= 10 {
      SpellBound(n / 10);
      assert Power(|Spell(n)|) == 10 * Power(|Spell(n / 10)|);
    } else {
      assert Power(1) == 10 * Power(0);
    }
  }

  lemma {:induction false} PowerGrows(a: nat, b: nat)
    requires a <= b
    ensures Power(a) <= Power(b)
  {
    if a < b { PowerGrows(a, b - 1); }
  }

  lemma {:induction false} StrLeqSelf(s: string)
    ensures StrLeq(s, s)
  {
    if s != [] { StrLeqSelf(s[1..]); }
  }

  /** Strings of one length compare by their front parts first, then by the last character. */
  lemma {:induction false} StrLeqLast(x: string, y: string, c: char, d: char)
    requires |x| == |y|
    ensures StrLeq(x + [c], y + [d]) <==> if x == y then c <= d else StrLeq(x, y)
  {
    var a, b := x + [c], y + [d];
    if x == [] {
      assert a[1..] == [] && b[1..] == [];
    } else {
      StrLeqLast(x[1..], y[1..], c, d);
      assert a[1..] == x[1..] + [c] && b[1..] == y[1..] + [d];
      assert x == [x[0]] + x[1..] && y == [y[0]] + y[1..];
    }
  }

  lemma StrLeqCons(c: char, x: string, y: string)
    ensures StrLeq([c] + x, [c] + y) <==> StrLeq(x, y)
  {
    assert ([c] + x)[1..] == x && ([c] + y)[1..] == y;
  }

  /** A common beginning does not change the order. */
  lemma {:induction false} StrLeqFront(p: string, x: string, y: string)
    ensures StrLeq(p + x, p + y) <==> StrLeq(x, y)
  {
    hide StrLeq;
    if p == [] {
      assert p + x == x && p + y == y;
    } else {
      StrLeqFront(p[1..], x, y);
      StrLeqCons(p[0], p[1..] + x, p[1..] + y);
      assert p + x == [p[0]] + (p[1..] + x) && p + y == [p[0]] + (p[1..] + y);
    }
  }

  /** Nor does a common end, between strings of one length. */
  lemma {:induction false} StrLeqBack(x: string, y: string, s: string)
    requires |x| == |y|
    ensures StrLeq(x + s, y + s) <==> StrLeq(x, y)
  {
    if s == [] {
      assert x + s == x && y + s == y;
    } else {
      var init, last := s[..|s| - 1], s[|s| - 1];
      StrLeqBack(x, y, init);
      StrLeqLast(x + init, y + init, last, last);
      assert x + s == x + init + [last] && y + s == y + init + [last];
      if x + init == y + init {
        assert (x + init)[..|x|] == x && (y + init)[..|y|] == y;
        StrLeqSelf(x);
      }
    }
  }

  /** Padded numbers compare as text exactly as they compare as numbers, and differ when they do. */
  lemma {:induction false} PadOrder(a: nat, b: nat, width: nat)
    requires a < Power(width) && b < Power(width)
    ensures StrLeq(Pad(a, width), Pad(b, width)) <==> a <= b
    ensures Pad(a, width) == Pad(b, width) <==> a == b
  {
    if width > 0 {
      PadOrder(a / 10, b / 10, width - 1);
      var x, y := Pad(a / 10, width - 1), Pad(b / 10, width - 1);
      StrLeqLast(x, y, Digit(a % 10), Digit(b % 10));
      assert (x + [Digit(a % 10)])[..width - 1] == x && (y + [Digit(b % 10)])[..width - 1] == y;
      assert (x + [Digit(a % 10)])[width - 1] == Digit(a % 10) && (y + [Digit(b % 10)])[width - 1] == Digit(b % 10);
    } else {
      assert Power(0) == 1;
    }
  }

  /** Strings that differ only in a middle of one length compare by that middle. */
  lemma StrLeqMiddle(front: string, x: string, y: string, back: string)
    requires |x| == |y|
    ensures StrLeq(front + x + back, front + y + back) <==> StrLeq(x, y)
    ensures front + x + back == front + y + back <==> x == y
  {
    hide StrLeq;
    StrLeqBack(front + x, front + y, back);
    StrLeqFront(front, x, y);
    var a, b := front + x + back, front + y + back;
    assert a[|front|..|front| + |x|] == x && b[|front|..|front| + |y|] == y;
  }
}
