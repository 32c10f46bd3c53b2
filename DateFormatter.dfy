/**
 * `DateFormatter` (domain/utils/DateFormatter.kt): the `MM/dd/yyyy` keystroke
 * mask `fromDigits`. `fromMillis` and `isValid` are single calls into
 * `SimpleDateFormat` and are parameters of the model (see DateInputInteractor).
 */
module DateFormatter {
  import opened Text

  function Min(a: nat, b: nat): nat {
    if a <= b then a else b
  }

  /** `s.take(n)`. */
  function Take(s: string, n: nat): (r: string)
    ensures |r| == Min(|s|, n) && r == s[..|r|]
  {
    if |s| <= n then s else s[..n]
  }

  /** The buffer `fromDigits` builds before `take(10)`: every input character, and a '/' after the characters at indices 1 and 3. */
  function Buffer(digits: string): (r: string)
    ensures |r| == |digits| + (if |digits| >= 2 then 1 else 0) + (if |digits| >= 4 then 1 else 0)
  {
    if digits == [] then []
    else
      var i := |digits| - 1;
      Buffer(digits[..i]) + [digits[i]] + (if i == 1 || i == 3 then "/" else "")
  }

  /** What `fromDigits(digits)` returns: at most ten characters, and the cap cuts nothing from eight digits or fewer. */
  function MaskDate(digits: string): (r: string)
    ensures |r| <= 10
    ensures |digits| <= 8 ==> r == Buffer(digits)
  {
    Take(Buffer(digits), 10)
  }

  /** `fromDigits`: appends each character, and a '/' after indices 1 and 3, then keeps at most 10 characters. */
  method FromDigits(digits: string) returns (r: string)
    ensures r == MaskDate(digits)
  {
    var buf := "";
    var i := 0;
    while i < |digits|
      invariant 0 <= i <= |digits|
      invariant buf == Buffer(digits[..i])
    {
      assert digits[..i + 1][..i] == digits[..i];
      buf := buf + [digits[i]];
      if i == 1 || i == 3 {
        buf := buf + "/";
      }
      i := i + 1;
    }
    assert digits[..|digits|] == digits;
    r := if |buf| <= 10 then buf else buf[..10];
  }

  /**
   * An independent description of the mask: two characters, '/', two characters,
   * '/', the next four characters; shorter inputs stop early.
   */
  function DateShape(d: string): string {
    if |d| < 2 then d
    else if |d| < 4 then d[..2] + "/" + d[2..]
    else d[..2] + "/" + d[2..4] + "/" + d[4..Min(|d|, 8)]
  }

  /** The mask without the eight-character cap: the buffer `fromDigits` fills before `take(10)`. */
  function UncappedShape(d: string): string {
    if |d| < 2 then d
    else if |d| < 4 then d[..2] + "/" + d[2..]
    else d[..2] + "/" + d[2..4] + "/" + d[4..]
  }

  /** One step of the loop: appending the character at index `i` to the shape of the first `i` characters. */
  lemma UncappedShapeStep(d: string)
    requires |d| >= 1
    ensures var i := |d| - 1;
      UncappedShape(d) == UncappedShape(d[..i]) + [d[i]] + (if i == 1 || i == 3 then "/" else "")
  {
    var n := |d|;
    var i := n - 1;
    var p := d[..i];
    if n == 1 {
      assert UncappedShape(d) == d == [d[0]];
    } else if n == 2 {
      assert p == d[..1];
      assert d[..1] + [d[1]] == d[..2];
    } else if n == 3 {
      assert p[..2] == d[..2] && p[2..] == [];
      assert d[2..] == [d[2]];
    } else if n == 4 {
      assert p[..2] == d[..2] && p[2..] == [d[2]];
      assert d[2..4] == [d[2]] + [d[3]];
    } else {
      assert p[..2] == d[..2] && p[2..4] == d[2..4];
      assert p[4..] + [d[i]] == d[4..];
    }
  }

  /** The buffer the loop builds has the uncapped shape. */
  lemma {:induction false} BufferShape(d: string)
    ensures Buffer(d) == UncappedShape(d)
  {
    if d != [] {
      BufferShape(d[..|d| - 1]);
      UncappedShapeStep(d);
    }
  }

  /** `fromDigits` agrees with the independent description of the mask on every input. */
  lemma MaskDateShape(d: string)
    ensures MaskDate(d) == DateShape(d)
  {
    BufferShape(d);
    if |d| >= 4 {
      var b := Buffer(d);
      if |d| >= 8 {
        assert Take(b, 10) == b[..10];
        assert b[..10] == d[..2] + "/" + d[2..4] + "/" + d[4..8];
      }
    }
  }

  /**
   * Length of the mask: never more than 10, and for at most 8 input
   * characters nothing is dropped; the empty input gives the empty output.
   */
  lemma MaskDateLength(d: string)
    ensures |MaskDate(d)| <= 10
    ensures |d| <= 8 ==> |MaskDate(d)| == |d| + (if |d| >= 2 then 1 else 0) + (if |d| >= 4 then 1 else 0)
    ensures d == "" ==> MaskDate(d) == ""
  {
    MaskDateShape(d);
  }

  /**
   * Position by position: '/' sits at indices 2 and 5 (when the output is that
   * long), and every other output character is the input character that the
   * slashes before it have shifted right.
   */
  lemma MaskDatePositions(d: string)
    ensures var r := MaskDate(d);
      && (2 < |r| ==> r[2] == '/')
      && (5 < |r| ==> r[5] == '/')
      && (forall k :: 0 <= k < |r| && k != 2 && k != 5 ==>
            r[k] == d[k - (if k > 2 then 1 else 0) - (if k > 5 then 1 else 0)])
  {
    MaskDateShape(d);
  }

  /** The mask depends only on the first eight input characters. */
  lemma MaskDateFirstEight(d: string)
    ensures MaskDate(d) == MaskDate(d[..Min(|d|, 8)])
  {
    var e := d[..Min(|d|, 8)];
    MaskDateShape(d);
    MaskDateShape(e);
    if |d| >= 4 {
      assert e[..2] == d[..2] && e[2..4] == d[2..4] && e[4..Min(|e|, 8)] == d[4..Min(|d|, 8)];
    } else {
      assert e == d;
    }
  }

  /** The first `m` characters, cut at 2 and 4, come back by joining the parts. */
  lemma ThreeParts(d: string, m: nat)
    requires 4 <= m <= |d|
    ensures d[..2] + d[2..4] + d[4..m] == d[..m]
  {
    assert d[..4] == d[..2] + d[2..4];
    assert d[..m] == d[..4] + d[4..m];
  }

  /** `s` with every '/' deleted. */
  function RemoveSlashes(s: string): (r: string)
    ensures '/' !in r
  {
    if s == [] then []
    else if s[0] == '/' then RemoveSlashes(s[1..])
    else [s[0]] + RemoveSlashes(s[1..])
  }

  lemma {:induction false} RemoveSlashesAppend(a: string, b: string)
    ensures RemoveSlashes(a + b) == RemoveSlashes(a) + RemoveSlashes(b)
  {
    if a == [] {
      assert a + b == b;
    } else {
      assert (a + b)[1..] == a[1..] + b;
      RemoveSlashesAppend(a[1..], b);
    }
  }

  lemma {:induction false} RemoveSlashesNone(s: string)
    requires '/' !in s
    ensures RemoveSlashes(s) == s
  {
    if s != [] {
      RemoveSlashesNone(s[1..]);
    }
  }

  /** Deleting the slashes of `a/b` gives `a` followed by `b`. */
  lemma RemoveSlashesOne(a: string, b: string)
    requires '/' !in a && '/' !in b
    ensures RemoveSlashes(a + "/" + b) == a + b
  {
    var sb := "/" + b;
    assert a + "/" + b == a + sb;
    assert sb[0] == '/' && sb[1..] == b;
    RemoveSlashesAppend(a, sb);
    RemoveSlashesNone(a);
    RemoveSlashesNone(b);
  }

  /** Deleting the slashes of `a/b/c` gives `a`, `b` and `c` in order. */
  lemma RemoveSlashesTwo(a: string, b: string, c: string)
    requires '/' !in a && '/' !in b && '/' !in c
    ensures RemoveSlashes(a + "/" + b + "/" + c) == a + b + c
  {
    var ab := a + "/" + b;
    assert a + "/" + b + "/" + c == ab + "/" + c;
    RemoveSlashesOne(a, b);
    var sc := "/" + c;
    assert ab + "/" + c == ab + sc;
    assert sc[0] == '/' && sc[1..] == c;
    RemoveSlashesAppend(ab, sc);
    RemoveSlashesNone(c);
  }

  /** Deleting the slashes of the output gives back the first min(n, 8) input characters, in order. */
  lemma MaskDateRemoveSlashes(d: string)
    requires '/' !in d
    ensures RemoveSlashes(MaskDate(d)) == d[..Min(|d|, 8)]
  {
    MaskDateShape(d);
    var m := Min(|d|, 8);
    if |d| < 2 {
      RemoveSlashesNone(d);
    } else if |d| < 4 {
      RemoveSlashesOne(d[..2], d[2..]);
      assert d[..2] + d[2..] == d;
    } else {
      var a, b, c := d[..2], d[2..4], d[4..m];
      RemoveSlashesTwo(a, b, c);
      ThreeParts(d, m);
    }
  }

  /** The digits of `a/b`, for digit strings `a` and `b`, are `a` followed by `b`. */
  lemma DigitsOfOne(a: string, b: string)
    requires AllDigits(a) && AllDigits(b)
    ensures DigitsOf(a + "/" + b) == a + b
  {
    var sb := "/" + b;
    assert a + "/" + b == a + sb;
    assert sb[0] == '/' && sb[1..] == b;
    DigitsOfAppend(a, sb);
    DigitsOfAllDigits(a);
    DigitsOfAllDigits(b);
  }

  /** The digits of `a/b/c`, for digit strings, are `a`, `b` and `c` in order. */
  lemma DigitsOfTwo(a: string, b: string, c: string)
    requires AllDigits(a) && AllDigits(b) && AllDigits(c)
    ensures DigitsOf(a + "/" + b + "/" + c) == a + b + c
  {
    var ab := a + "/" + b;
    assert a + "/" + b + "/" + c == ab + "/" + c;
    DigitsOfOne(a, b);
    var sc := "/" + c;
    assert ab + "/" + c == ab + sc;
    assert sc[0] == '/' && sc[1..] == c;
    DigitsOfAppend(ab, sc);
    DigitsOfAllDigits(c);
  }

  /** For digit input the mask's own digits are the first min(n, 8) input digits. */
  lemma MaskDateDigits(d: string)
    requires AllDigits(d)
    ensures DigitsOf(MaskDate(d)) == d[..Min(|d|, 8)]
  {
    MaskDateShape(d);
    var m := Min(|d|, 8);
    if |d| < 2 {
      DigitsOfAllDigits(d);
    } else if |d| < 4 {
      DigitsOfOne(d[..2], d[2..]);
      assert d[..2] + d[2..] == d;
    } else {
      var a, b, c := d[..2], d[2..4], d[4..m];
      DigitsOfTwo(a, b, c);
      ThreeParts(d, m);
    }
  }

  /** Two and eight digits: "12" becomes "12/", and eight digits take the shape DD/DD/DDDD. */
  lemma MaskDateExamples(d: string)
    requires |d| == 2 || |d| == 8
    ensures |d| == 2 ==> MaskDate(d) == d + "/"
    ensures |d| == 8 ==> MaskDate(d) == d[..2] + "/" + d[2..4] + "/" + d[4..]
  {
    MaskDateShape(d);
    assert |d| == 2 ==> d[..2] == d && d[2..] == [];
  }
}
