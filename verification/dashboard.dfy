/** The payment summary of the broker dashboard (dist/js/dashboard.js): the
    "amount to pay" field is reformatted with thousands separators as the
    broker types, the cursor is kept after the same digit, and the credit
    balance is the part of the order total not paid now. */
module Dashboard {
  import opened Common
  import opened Numbers

  // ------------------------------------------------------------ digit counting

  /** The number of decimal digits in `s`. */
  function DigitCount(s: string): (n: nat)
    ensures n <= |s|
  {
    if s == [] then 0 else (if IsDigit(s[0]) then 1 else 0) + DigitCount(s[1..])
  }

  lemma {:induction false} DigitCountAppend(a: string, b: string)
    ensures DigitCount(a + b) == DigitCount(a) + DigitCount(b)
    decreases |a|
  {
    if a == [] {
      assert a + b == b;
    } else {
      assert (a + b)[1..] == a[1..] + b;
      DigitCountAppend(a[1..], b);
    }
  }

  /** Counting one more character of a prefix. */
  lemma DigitCountStep(s: string, i: nat)
    requires i < |s|
    ensures DigitCount(s[..i + 1]) == DigitCount(s[..i]) + (if IsDigit(s[i]) then 1 else 0)
  {
    assert s[..i + 1] == s[..i] + [s[i]];
    DigitCountAppend(s[..i], [s[i]]);
    assert [s[i]][1..] == [];
  }

  /** A filter that keeps every digit keeps the digit count. */
  lemma {:induction false} DigitCountFilter(s: string, p: char -> bool)
    requires forall c :: IsDigit(c) ==> p(c)
    ensures DigitCount(Filter(s, p)) == DigitCount(s)
    decreases |s|
  {
    if s != [] {
      DigitCountFilter(s[1..], p);
      var head := if p(s[0]) then [s[0]] else [];
      assert Filter(s, p) == head + Filter(s[1..], p);
      DigitCountAppend(head, Filter(s[1..], p));
      if p(s[0]) {
        assert head[1..] == [];
      }
    }
  }

  /** `Math.min(position, length)`, never below 0: how many characters the
      counting loop visits. */
  function Visited(position: int, length: nat): (n: nat)
    ensures n <= length
    ensures 0 <= position <= length ==> n == position
  {
    if position < 0 then 0 else if position < length then position else length
  }

  /** `countDigitsBeforePosition(value, position)` */
  method CountDigitsBeforePosition(value: string, position: int) returns (digitCount: nat)
    ensures digitCount == DigitCount(value[..Visited(position, |value|)])
    ensures digitCount <= Visited(position, |value|)
  {
    digitCount := 0;
    var limit := if position < |value| then position else |value|;
    var i := 0;
    while i < limit
      invariant 0 <= i <= Visited(position, |value|)
      invariant digitCount == DigitCount(value[..i])
    {
      DigitCountStep(value, i);
      if IsDigit(value[i]) {
        digitCount := digitCount + 1;
      }
      i := i + 1;
    }
  }

  /** `getPositionAfterDigits(formattedValue, digitCount)`: the position just
      after the `digitCount`-th digit, the end when there are fewer digits,
      and 0 when no digit is asked for. */
  method GetPositionAfterDigits(s: string, digitCount: int) returns (r: nat)
    ensures r <= |s|
    ensures digitCount <= 0 ==> r == 0
    ensures 1 <= digitCount <= DigitCount(s) ==>
              r >= 1 && IsDigit(s[r - 1]) && DigitCount(s[..r]) == digitCount
    ensures digitCount > DigitCount(s) ==> r == |s|
  {
    var digitsFound := 0;
    var position := 0;
    var i := 0;
    while i < |s|
      invariant 0 <= i <= |s|
      invariant digitsFound == DigitCount(s[..i])
      invariant digitCount <= 0 ==> position == 0
      invariant digitCount >= 1 ==> digitsFound < digitCount && position == i
      invariant position <= i
    {
      DigitCountStep(s, i);
      if IsDigit(s[i]) {
        digitsFound := digitsFound + 1;
        if digitsFound == digitCount {
          position := i + 1;
          break;
        }
      }
      if digitsFound < digitCount {
        position := i + 1;
      }
      i := i + 1;
    }
    assert s[..position] + s[position..] == s;
    DigitCountAppend(s[..position], s[position..]);
    r := position;
  }

  // ------------------------------------------------------------ cleaning

  predicate IsDigitOrDot(c: char) {
    IsDigit(c) || c == '.'
  }

  predicate NotDot(c: char) {
    c != '.'
  }

  /** The cleaning step of `handleInputFormatting`: everything but digits and
      '.' removed, then every '.' after the first removed. */
  function Clean(s: string): (r: string)
    ensures forall i :: 0 <= i < |r| ==> IsDigitOrDot(r[i])
  {
    var c := Filter(s, IsDigitOrDot);
    var k := IndexOf(c, '.');
    if k < |c| then
      FilterMembers(c[k + 1..], NotDot);
      c[..k + 1] + Filter(c[k + 1..], NotDot)
    else c
  }

  /** Filtering keeps the digits of a text without '.'. */
  lemma DotlessFilter(a: string)
    requires forall i :: 0 <= i < |a| ==> a[i] != '.'
    ensures Filter(a, IsDigitOrDot) == Digits(a)
  {
    FilterCongruent(a, IsDigitOrDot, IsDigit);
  }

  /** Cleaning a text whose first '.' follows `a`. */
  lemma CleanSplit(a: string, b: string)
    requires forall i :: 0 <= i < |a| ==> a[i] != '.'
    ensures Clean(a + ['.'] + b) == Digits(a) + "." + Digits(b)
  {
    var c := Filter(a + ['.'] + b, IsDigitOrDot);
    FilterAppend(a + ['.'], b, IsDigitOrDot);
    FilterAppend(a, ['.'], IsDigitOrDot);
    assert Filter(['.'], IsDigitOrDot) == ['.'] by {
      assert ['.'][1..] == [];
    }
    DotlessFilter(a);
    var d := Digits(a);
    var rest := Filter(b, IsDigitOrDot);
    assert c == d + ['.'] + rest;
    assert c[|d|] == '.';
    assert forall i :: 0 <= i < |d| ==> c[i] == d[i];
    assert IndexOf(c, '.') == |d|;
    assert c[..|d| + 1] == d + ".";
    assert c[|d| + 1..] == rest;
    FilterFilter(b, IsDigitOrDot, NotDot, IsDigit);
  }

  lemma SplitAround(s: string, j: nat)
    requires j < |s|
    ensures s == s[..j] + [s[j]] + s[j + 1..]
  {
  }

  lemma CleanWithoutPoint(s: string)
    requires IndexOf(s, '.') == |s|
    ensures Clean(s) == Digits(s)
  {
    DotlessFilter(s);
    var c := Filter(s, IsDigitOrDot);
    NoPointInDigits(c);
  }

  /** What cleaning leaves: the digits before the first '.' of the input,
      that '.', and the digits after it; or only the digits when there is no
      '.'. */
  lemma CleanShape(s: string)
    ensures var j := IndexOf(s, '.');
            Clean(s) == if j < |s| then Digits(s[..j]) + "." + Digits(s[j + 1..]) else Digits(s)
  {
    var j := IndexOf(s, '.');
    if j < |s| {
      SplitAround(s, j);
      CleanSplit(s[..j], s[j + 1..]);
    } else {
      CleanWithoutPoint(s);
    }
  }

  /** The digits of a text have no '.' and as many digits as the text. */
  lemma DigitsCounts(x: string)
    ensures Count(Digits(x), '.') == 0
    ensures DigitCount(Digits(x)) == DigitCount(x)
  {
    CountAbsent(Digits(x), '.');
    DigitCountFilter(x, IsDigit);
  }

  /** The cleaned text holds at most one '.', and the same digits as the input. */
  lemma CleanDigits(s: string)
    ensures Count(Clean(s), '.') <= 1
    ensures DigitCount(Clean(s)) == DigitCount(s)
  {
    CleanShape(s);
    var j := IndexOf(s, '.');
    if j < |s| {
      DigitsCounts(s[..j]);
      DigitsCounts(s[j + 1..]);
      PointJoin(Digits(s[..j]), Digits(s[j + 1..]));
      SplitAround(s, j);
      assert [s[j]] == ".";
      PointJoin(s[..j], s[j + 1..]);
    } else {
      DigitsCounts(s);
    }
  }

  /** Counting over a text joined at a '.'. */
  lemma PointJoin(a: string, b: string)
    ensures Count(a + "." + b, '.') == Count(a, '.') + 1 + Count(b, '.')
    ensures DigitCount(a + "." + b) == DigitCount(a) + DigitCount(b)
  {
    assert "."[1..] == [];
    CountAppend(a + ".", b, '.');
    CountAppend(a, ".", '.');
    DigitCountAppend(a + ".", b);
    DigitCountAppend(a, ".");
  }

  /** Digits around one '.' are already clean. */
  lemma CleanOfSplit(a: string, b: string)
    requires AllDigits(a) && AllDigits(b)
    ensures Clean(a + ['.'] + b) == a + ['.'] + b
  {
    assert forall i :: 0 <= i < |a| ==> a[i] != '.';
    CleanSplit(a, b);
    FilterKeepsAll(a, IsDigit);
    FilterKeepsAll(b, IsDigit);
  }

  /** Digits alone are already clean. */
  lemma CleanOfDigits(d: string)
    requires AllDigits(d)
    ensures Clean(d) == d
  {
    CleanShape(d);
    assert IndexOf(d, '.') == |d| by {
      assert forall i :: 0 <= i < |d| ==> d[i] != '.';
    }
    FilterKeepsAll(d, IsDigit);
  }

  /** Cleaning twice is cleaning once. */
  lemma CleanIdempotent(s: string)
    ensures Clean(Clean(s)) == Clean(s)
  {
    CleanShape(s);
    var j := IndexOf(s, '.');
    if j < |s| {
      CleanOfSplit(Digits(s[..j]), Digits(s[j + 1..]));
    } else {
      CleanOfDigits(Digits(s));
    }
  }

  // ------------------------------------------------------------ thousands separators

  /** The regular expression word characters `[A-Za-z0-9_]`. */
  predicate IsWordChar(c: char) {
    IsDigit(c) || 'a' <= c <= 'z' || 'A' <= c <= 'Z' || c == '_'
  }

  predicate WordAt(x: string, p: int) {
    0 <= p < |x| && IsWordChar(x[p])
  }

  /** The length of the run of digits starting at `p`. */
  function DigitRun(x: string, p: nat): (n: nat)
    requires p <= |x|
    ensures n <= |x| - p
    ensures forall i :: p <= i < p + n ==> IsDigit(x[i])
    ensures p + n < |x| ==> !IsDigit(x[p + n])
    decreases |x| - p
  {
    if p < |x| && IsDigit(x[p]) then 1 + DigitRun(x, p + 1) else 0
  }

  /** Whether `\B(?=(\d{3})+(?!\d))` matches at position `p`: no word
      boundary there, and the digits that follow form whole groups of three. */
  predicate CommaAt(x: string, p: nat)
    requires p <= |x|
  {
    WordAt(x, p - 1) == WordAt(x, p) && DigitRun(x, p) >= 3 && DigitRun(x, p) % 3 == 0
  }

  /** A global replace of that pattern by ',', from position `p` on. */
  function CommasFrom(x: string, p: nat): string
    requires p <= |x|
    decreases |x| - p
  {
    (if CommaAt(x, p) then "," else "") + (if p < |x| then [x[p]] + CommasFrom(x, p + 1) else "")
  }

  function InsertCommas(x: string): string {
    CommasFrom(x, 0)
  }

  /** `formatNumberWithCommas(value)`: separators go into the part before the
      first '.', the rest is kept as it is. */
  function FormatNumberWithCommas(v: string): (r: string)
    ensures v == "" ==> r == ""
    ensures var k := IndexOf(v, '.');
            |r| >= |v| - k && r[|r| - (|v| - k)..] == v[k..]
  {
    if v == "" then "" else
    var k := IndexOf(v, '.');
    InsertCommas(v[..k]) + v[k..]
  }

  /** Reference grouping of a digit string: groups of three from the right. */
  function Grouped(x: string): (r: string)
    decreases |x|
  {
    if |x| <= 3 then x else Grouped(x[..|x| - 3]) + "," + x[|x| - 3..]
  }

  /** Commas before every character whose distance to the end is a positive
      multiple of three (a helper for the proof of `InsertCommasGroups`). */
  ghost function Tail(s: string): string
    decreases |s|
  {
    if s == [] then []
    else if |s| % 3 == 0 then [','] + ([s[0]] + Tail(s[1..]))
    else [s[0]] + Tail(s[1..])
  }

  lemma {:induction false} TailAppend(a: string, b: string)
    requires |b| % 3 == 0
    ensures Tail(a + b) == Tail(a) + Tail(b)
    decreases |a|
  {
    if a == [] {
      assert a + b == b;
    } else {
      var ab := a + b;
      assert ab[0] == a[0] && ab[1..] == a[1..] + b;
      ModThreeShift(|a|, |b|);
      TailAppend(a[1..], b);
      var ta, tb := Tail(a[1..]), Tail(b);
      if |a| % 3 == 0 {
        calc {
          Tail(ab);
          [','] + ([a[0]] + (ta + tb));
          { AppendAssoc([a[0]], ta, tb); }
          [','] + (([a[0]] + ta) + tb);
          { AppendAssoc([','], [a[0]] + ta, tb); }
          ([','] + ([a[0]] + ta)) + tb;
          Tail(a) + tb;
        }
      } else {
        calc {
          Tail(ab);
          [a[0]] + (ta + tb);
          { AppendAssoc([a[0]], ta, tb); }
          ([a[0]] + ta) + tb;
          Tail(a) + tb;
        }
      }
    }
  }

  lemma ModThreeShift(n: nat, m: nat)
    requires m % 3 == 0
    ensures (n + m) % 3 == n % 3
  {
    var q := m / 3;
    assert m == 3 * q;
  }

  lemma TailShort(s: string)
    requires |s| <= 2
    ensures Tail(s) == s
  {
    if |s| == 1 {
      assert s[1..] == [];
    } else if |s| == 2 {
      assert s[1..][1..] == [];
      assert Tail(s[1..]) == s[1..];
      assert [s[0]] + s[1..] == s;
    }
  }

  lemma TailThree(s: string)
    requires |s| == 3
    ensures Tail(s) == "," + s
  {
    TailShort(s[1..]);
    assert [s[0]] + s[1..] == s;
  }

  /** On a digit string the digits from `p` on run to the end. */
  lemma {:induction false} DigitRunOfDigits(x: string, p: nat)
    requires AllDigits(x) && p <= |x|
    ensures DigitRun(x, p) == |x| - p
    decreases |x| - p
  {
    if p < |x| {
      DigitRunOfDigits(x, p + 1);
    }
  }

  lemma {:induction false} CommasFromDigits(x: string, p: nat)
    requires AllDigits(x) && 1 <= p <= |x|
    ensures CommasFrom(x, p) == Tail(x[p..])
    decreases |x| - p
  {
    if p < |x| {
      CommasFromDigits(x, p + 1);
      CommaAtDigits(x, p);
      CommasFromUnfold(x, p);
      var t := x[p..];
      assert t[0] == x[p] && t[1..] == x[p + 1..] && |t| == |x| - p;
      if |t| % 3 == 0 {
        calc {
          CommasFrom(x, p);
          [','] + ([x[p]] + CommasFrom(x, p + 1));
          [','] + ([t[0]] + Tail(t[1..]));
          Tail(t);
        }
      } else {
        calc {
          CommasFrom(x, p);
          [x[p]] + CommasFrom(x, p + 1);
          [t[0]] + Tail(t[1..]);
          Tail(t);
        }
      }
    } else {
      DigitRunOfDigits(x, p);
      assert x[p..] == [];
    }
  }

  /** Inside a digit string the pattern matches exactly where the digits
      left to the end are a multiple of three. */
  lemma CommaAtDigits(x: string, p: nat)
    requires AllDigits(x) && 1 <= p < |x|
    ensures CommaAt(x, p) <==> (|x| - p) % 3 == 0
  {
    DigitRunOfDigits(x, p);
    assert IsDigit(x[p - 1]) && IsDigit(x[p]);
  }

  /** One step of the replace, before the end. */
  lemma CommasFromUnfold(x: string, p: nat)
    requires p < |x|
    ensures CommasFrom(x, p) == if CommaAt(x, p) then [','] + ([x[p]] + CommasFrom(x, p + 1))
                                else [x[p]] + CommasFrom(x, p + 1)
  {
    var rest := [x[p]] + CommasFrom(x, p + 1);
    if !CommaAt(x, p) {
      assert "" + rest == rest;
    }
  }

  /** On a digit string the replace puts a ',' between every group of three
      digits counted from the right, and nowhere else. */
  lemma {:induction false} InsertCommasGroups(x: string)
    requires AllDigits(x)
    ensures InsertCommas(x) == Grouped(x)
    decreases |x|
  {
    if x != [] {
      InsertCommasHead(x);
      var n := |x|;
      if n <= 3 {
        TailShort(x[1..]);
        assert [x[0]] + x[1..] == x;
      } else {
        var front, last := x[..n - 3], x[n - 3..];
        assert front[0] == x[0];
        calc {
          InsertCommas(x);
          [x[0]] + Tail(x[1..]);
          { assert x[1..] == front[1..] + last; TailAppend(front[1..], last); }
          [x[0]] + (Tail(front[1..]) + Tail(last));
          { AppendAssoc([x[0]], Tail(front[1..]), Tail(last)); }
          ([x[0]] + Tail(front[1..])) + Tail(last);
          { InsertCommasHead(front); }
          InsertCommas(front) + Tail(last);
          { InsertCommasGroups(front); TailThree(last); }
          Grouped(front) + ("," + last);
          { AppendAssoc(Grouped(front), ",", last); }
          Grouped(x);
        }
      }
    }
  }

  /** No ',' goes before the first digit. */
  lemma InsertCommasHead(x: string)
    requires AllDigits(x) && x != []
    ensures InsertCommas(x) == [x[0]] + Tail(x[1..])
  {
    DigitRunOfDigits(x, 0);
    CommasFromDigits(x, 1);
    assert !CommaAt(x, 0);
  }

  predicate NotComma(c: char) {
    c != ','
  }

  /** `value.replace(/,/g, '')` */
  function RemoveCommas(s: string): (r: string)
    ensures forall i :: 0 <= i < |r| ==> r[i] != ','
  {
    Filter(s, NotComma)
  }

  /** The replace only inserts commas. */
  lemma {:induction false} CommasFromRemoved(x: string, p: nat)
    requires p <= |x|
    ensures RemoveCommas(CommasFrom(x, p)) == RemoveCommas(x[p..])
    decreases |x| - p
  {
    var lead := if CommaAt(x, p) then "," else "";
    assert RemoveCommas(lead) == [] by {
      if CommaAt(x, p) {
        assert lead[1..] == [];
      }
    }
    if p < |x| {
      CommasFromRemoved(x, p + 1);
      CommasFromStep(x, p, lead);
    } else {
      assert CommasFrom(x, p) == lead;
      assert x[p..] == [];
    }
  }

  lemma CommasFromStep(x: string, p: nat, lead: string)
    requires p < |x| && RemoveCommas(lead) == []
    requires RemoveCommas(CommasFrom(x, p + 1)) == RemoveCommas(x[p + 1..])
    ensures RemoveCommas(lead + ([x[p]] + CommasFrom(x, p + 1))) == RemoveCommas(x[p..])
  {
    var rest := CommasFrom(x, p + 1);
    calc {
      RemoveCommas(lead + ([x[p]] + rest));
      { FilterAppend(lead, [x[p]] + rest, NotComma); }
      RemoveCommas(lead) + RemoveCommas([x[p]] + rest);
      RemoveCommas([x[p]] + rest);
      { FilterAppend([x[p]], rest, NotComma); }
      RemoveCommas([x[p]]) + RemoveCommas(rest);
      RemoveCommas([x[p]]) + RemoveCommas(x[p + 1..]);
      { FilterAppend([x[p]], x[p + 1..], NotComma); }
      RemoveCommas([x[p]] + x[p + 1..]);
      { assert x[p..] == [x[p]] + x[p + 1..]; }
      RemoveCommas(x[p..]);
    }
  }

  lemma InsertedRemoved(w: string, t: string)
    ensures RemoveCommas(InsertCommas(w) + t) == RemoveCommas(w + t)
  {
    CommasFromRemoved(w, 0);
    assert w[0..] == w;
    FilterAppend(InsertCommas(w), t, NotComma);
    FilterAppend(w, t, NotComma);
  }

  /** Formatting changes nothing but commas. */
  lemma FormatRemovesToSame(v: string)
    ensures RemoveCommas(FormatNumberWithCommas(v)) == RemoveCommas(v)
  {
    if v != "" {
      var k := IndexOf(v, '.');
      calc {
        RemoveCommas(FormatNumberWithCommas(v));
        RemoveCommas(InsertCommas(v[..k]) + v[k..]);
        { InsertedRemoved(v[..k], v[k..]); }
        RemoveCommas(v[..k] + v[k..]);
        { SplitJoin(v, k); }
        RemoveCommas(v);
      }
    }
  }

  /** A cleaned value is formatted by grouping the digits before its '.'. */
  lemma FormatCleanGroups(s: string)
    ensures var c := Clean(s);
            var k := IndexOf(c, '.');
            c != "" ==> FormatNumberWithCommas(c) == Grouped(c[..k]) + c[k..]
  {
    var c := Clean(s);
    var k := IndexOf(c, '.');
    if c != "" {
      assert AllDigits(c[..k]) by {
        forall i | 0 <= i < k
          ensures IsDigit(c[..k][i])
        {
          assert IsDigitOrDot(c[i]) && c[i] != '.';
        }
      }
      InsertCommasGroups(c[..k]);
    }
  }

  /** Formatting keeps every digit in place. */
  lemma FormatKeepsDigits(v: string)
    ensures DigitCount(FormatNumberWithCommas(v)) == DigitCount(v)
  {
    FormatRemovesToSame(v);
    DigitCountFilter(FormatNumberWithCommas(v), NotComma);
    DigitCountFilter(v, NotComma);
  }

  /** Cleaning a formatted value undoes the formatting. */
  lemma CleanIgnoresCommas(v: string)
    ensures Clean(FormatNumberWithCommas(v)) == Clean(v)
  {
    var f := FormatNumberWithCommas(v);
    assert forall c :: IsDigitOrDot(c) == (NotComma(c) && IsDigitOrDot(c));
    calc {
      Filter(f, IsDigitOrDot);
      { FilterFilter(f, NotComma, IsDigitOrDot, IsDigitOrDot); }
      Filter(RemoveCommas(f), IsDigitOrDot);
      { FormatRemovesToSame(v); }
      Filter(RemoveCommas(v), IsDigitOrDot);
      { FilterFilter(v, NotComma, IsDigitOrDot, IsDigitOrDot); }
      Filter(v, IsDigitOrDot);
    }
    SameKeptSameClean(f, v);
  }

  /** Cleaning depends only on the digits and '.' characters kept. */
  lemma SameKeptSameClean(a: string, b: string)
    requires Filter(a, IsDigitOrDot) == Filter(b, IsDigitOrDot)
    ensures Clean(a) == Clean(b)
  {
  }

  /** What `handleInputFormatting` writes into the field. */
  function Reformat(s: string): string {
    FormatNumberWithCommas(Clean(s))
  }

  /** Reformatting an already reformatted value leaves it as it is. */
  lemma ReformatIdempotent(s: string)
    ensures Reformat(Reformat(s)) == Reformat(s)
  {
    CleanIgnoresCommas(Clean(s));
    CleanIdempotent(s);
  }

  /** Reformatting keeps at least as many digits as any prefix of the input. */
  lemma ReformatKeepsDigits(s: string, n: nat)
    requires n <= |s|
    ensures DigitCount(s[..n]) <= DigitCount(Reformat(s))
  {
    CleanDigits(s);
    FormatKeepsDigits(Clean(s));
    DigitCountAppend(s[..n], s[n..]);
    assert s[..n] + s[n..] == s;
  }

  /** The cursor at `newCursor` in `newText` follows as many digits as the
      cursor at `cursor` followed in `oldText`, right after a digit, or sits
      at the start when it followed none. */
  predicate CursorKept(oldText: string, cursor: nat, newText: string, newCursor: nat) {
    var before := DigitCount(oldText[..Visited(cursor, |oldText|)]);
    newCursor <= |newText| &&
    (before == 0 ==> newCursor == 0) &&
    (before >= 1 ==> newCursor >= 1 && IsDigit(newText[newCursor - 1]) &&
                     DigitCount(newText[..newCursor]) == before)
  }

  // ------------------------------------------------------------ amounts

  /** `parseFormattedNumber(value)` */
  function ParseFormattedNumber(v: string): (n: real)
    ensures n == NumberOrZero(RemoveCommas(v))
  {
    if v == "" then 0.0 else NumberOrZero(RemoveCommas(v))
  }

  /** Formatting does not change the amount a value stands for. */
  lemma FormattedParsesBack(v: string)
    ensures ParseFormattedNumber(FormatNumberWithCommas(v)) == ParseFormattedNumber(v)
  {
    FormatRemovesToSame(v);
  }

  /** Grouped digits parse back to the number they spell. */
  lemma GroupedParses(x: string)
    requires |x| >= 1 && AllDigits(x)
    ensures ParseFormattedNumber(Grouped(x)) == DigitsValue(x) as real
  {
    var g := Grouped(x);
    InsertCommasGroups(x);
    assert IndexOf(x, '.') == |x|;
    assert x[..|x|] == x && x[|x|..] == "";
    assert g == FormatNumberWithCommas(x);
    FormatRemovesToSame(x);
    FilterKeepsAll(x, NotComma);
    assert RemoveCommas(g) == x;
    assert g != "";
    assert ParseFormattedNumber(g) == NumberOrZero(x);
    DigitsParse(x);
  }

  /** `Math.max(0, orderTotal - amountToPay)` */
  function Credit(orderTotal: real, amountToPay: real): (r: real)
    ensures r >= 0.0 && r >= orderTotal - amountToPay
    ensures r == 0.0 || r == orderTotal - amountToPay
  {
    if orderTotal - amountToPay > 0.0 then orderTotal - amountToPay else 0.0
  }

  /** Paying part of the total leaves the rest as credit; paying it all
      leaves none. */
  lemma CreditSettles(orderTotal: real, amountToPay: real)
    ensures amountToPay <= orderTotal ==> amountToPay + Credit(orderTotal, amountToPay) == orderTotal
    ensures amountToPay >= orderTotal ==> Credit(orderTotal, amountToPay) == 0.0
  {
  }

  /** The payment summary of the dashboard: the order total shown, the text
      of the amount field and the credit balance shown. */
  class PaymentSummary {
    var orderTotalText: string
    var amountText: string
    var creditText: string
    var isFormatting: bool

    /** The constructor with its `initialize()`: the fields as the page
        shows them, then the first `updateCreditBalance()`; `fmt` is
        `formatCurrency`. */
    constructor (orderTotalText: string, amountText: string, fmt: real -> string)
      ensures this.orderTotalText == orderTotalText && this.amountText == amountText
      ensures creditText == fmt(Credit(ParseFormattedNumber(orderTotalText), ParseFormattedNumber(amountText)))
      ensures !isFormatting
    {
      this.orderTotalText := orderTotalText;
      this.amountText := amountText;
      isFormatting := false;
      new;
      UpdateCreditBalance(fmt);
    }

    /** The credit balance for what the fields show now. */
    function CurrentCredit(): real
      reads this
    {
      Credit(ParseFormattedNumber(orderTotalText), ParseFormattedNumber(amountText))
    }

    /** `updateCreditBalance()`; `fmt` is `formatCurrency`. */
    method UpdateCreditBalance(fmt: real -> string)
      modifies this
      ensures creditText == fmt(old(CurrentCredit()))
      ensures orderTotalText == old(orderTotalText) && amountText == old(amountText)
      ensures isFormatting == old(isFormatting)
    {
      var orderTotal := ParseFormattedNumber(orderTotalText);
      var amountToPay := ParseFormattedNumber(amountText);
      var credit := Credit(orderTotal, amountToPay);
      creditText := fmt(credit);
    }

    /** `ensureProperDecimalFormatting()`: a positive amount is rewritten in
        currency format, anything else is left as typed. */
    method EnsureProperDecimalFormatting(fmt: real -> string)
      modifies this
      ensures var n := ParseFormattedNumber(old(amountText));
              amountText == if n > 0.0 then fmt(n) else old(amountText)
      ensures orderTotalText == old(orderTotalText) && creditText == old(creditText)
      ensures isFormatting == old(isFormatting)
    {
      var numericValue := ParseFormattedNumber(amountText);
      if numericValue > 0.0 {
        amountText := fmt(numericValue);
      }
    }

    /** `handleInputBlur()` */
    method HandleInputBlur(fmt: real -> string)
      modifies this
      ensures creditText == fmt(old(CurrentCredit()))
      ensures var n := ParseFormattedNumber(old(amountText));
              amountText == if n > 0.0 then fmt(n) else old(amountText)
      ensures orderTotalText == old(orderTotalText)
    {
      UpdateCreditBalance(fmt);
      EnsureProperDecimalFormatting(fmt);
    }

    /** `handleKeyDown(event)`: Enter updates the credit and leaves the
        field, which runs the blur handler. */
    method HandleKeyDown(key: string, fmt: real -> string)
      modifies this
      ensures key != "Enter" ==> unchanged(this)
      ensures key == "Enter" ==> creditText == fmt(old(CurrentCredit()))
      ensures key == "Enter" ==> var n := ParseFormattedNumber(old(amountText));
              amountText == if n > 0.0 then fmt(n) else old(amountText)
    {
      if key == "Enter" {
        UpdateCreditBalance(fmt);
        HandleInputBlur(fmt);
      }
    }

    /** `handleInputFormatting(event)`: the field is cleaned and regrouped,
        the cursor goes after the same number of digits it followed before,
        and the credit is brought up to date. `cursor` is the selection start
        (0 when there is none); the result is the new cursor position. */
    method HandleInputFormatting(cursor: nat, fmt: real -> string) returns (newCursor: nat)
      modifies this
      ensures old(isFormatting) ==> unchanged(this) && newCursor == cursor
      ensures !old(isFormatting) ==> amountText == Reformat(old(amountText)) && !isFormatting
      ensures !old(isFormatting) ==> CursorKept(old(amountText), cursor, amountText, newCursor)
      ensures !old(isFormatting) ==> creditText == fmt(CurrentCredit())
      ensures orderTotalText == old(orderTotalText)
    {
      if isFormatting {
        return cursor;
      }
      var oldValue := amountText;
      var digitsBeforeCursor := CountDigitsBeforePosition(oldValue, cursor);
      var cleanValue := Clean(oldValue);
      var formattedValue := FormatNumberWithCommas(cleanValue);
      isFormatting := true;
      amountText := formattedValue;
      isFormatting := false;
      newCursor := GetPositionAfterDigits(formattedValue, digitsBeforeCursor);
      ReformatKeepsDigits(oldValue, Visited(cursor, |oldValue|));
      assert CursorKept(oldValue, cursor, formattedValue, newCursor);
      UpdateCreditBalance(fmt);
    }
  }
}
