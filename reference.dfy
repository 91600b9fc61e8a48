/**
 * Reference numbers of the chat intake (chat.js): the `YYMMDD` date stamp of `getCurrentDate`,
 * the `{CC|PMT}-{TYPE}-{YYMMDD}-{SEQ}` format of `generateReferenceNumber`, and the status
 * check that pulls a reference back out of free text with `/(CC|PMT)-[A-Z]+-\d{6}-\d{3}/`
 * and reads its date with `split('-')[2]`.
 */
module Reference {
  import opened Wrappers
  import opened Text

  /** A calendar date as the browser's `Date` reports it (full year, month 1-12, day 1-31). */
  datatype Date = Date(year: nat, month: nat, day: nat)

  predicate ValidDate(d: Date)
  {
    1 <= d.month <= 12 && 1 <= d.day <= 31
  }

  /** Two decimal digits of `n < 100`, the reference meaning of "zero-padded to two". */
  function TwoDigits(n: nat): string
    requires n < 100
  {
    [DigitChar(n / 10), DigitChar(n % 10)]
  }

  /**
   * `getCurrentDate`: the last two characters of the year, then month and day padded
   * with `0` to two characters.
   */
  function DateStamp(d: Date): (stamp: string)
    requires ValidDate(d)
    ensures AllDigits(stamp)
    ensures |stamp| == 6 <==> d.year >= 10
    ensures d.year >= 10 ==> stamp == TwoDigits(d.year % 100) + TwoDigits(d.month) + TwoDigits(d.day)
  {
    PadTwoIsTwoDigits(d.month);
    PadTwoIsTwoDigits(d.day);
    LastTwoOfYear(d.year);
    LastN(Decimal(d.year), 2) + PadStart(Decimal(d.month), 2, '0') + PadStart(Decimal(d.day), 2, '0')
  }

  lemma PadTwoIsTwoDigits(n: nat)
    requires n < 100
    ensures PadStart(Decimal(n), 2, '0') == TwoDigits(n)
  {
    if n >= 10 {
      assert Decimal(n / 10) == [DigitChar(n / 10)];
    }
  }

  lemma LastTwoOfYear(y: nat)
    ensures AllDigits(LastN(Decimal(y), 2))
    ensures |LastN(Decimal(y), 2)| == 2 <==> y >= 10
    ensures y >= 10 ==> LastN(Decimal(y), 2) == TwoDigits(y % 100)
  {
    var r := Decimal(y);
    if y >= 10 {
      var h := Decimal(y / 10);
      var u := DigitChar(y % 10);
      assert r == h + [u];
      var last := r[|r| - 2..];
      assert last == [h[|h| - 1], u];
      LastDigit(y / 10);
      TensOfLastTwo(y);
      assert last == TwoDigits(y % 100);
    }
  }

  /** The last character of a numeral is its units digit. */
  lemma LastDigit(n: nat)
    ensures Decimal(n)[|Decimal(n)| - 1] == DigitChar(n % 10)
  {
  }

  lemma TensOfLastTwo(y: nat)
    ensures (y % 100) / 10 == (y / 10) % 10 && (y % 100) % 10 == y % 10
  {
    var a, b := y / 100, y % 100;
    var c, u := b / 10, b % 10;
    assert y == 10 * (10 * a + c) + u;
    DivTen(y, 10 * a + c, u);
    DivTen(y / 10, a, c);
  }

  lemma DivTen(n: int, q: int, r: int)
    requires 0 <= r < 10 && n == 10 * q + r
    ensures n / 10 == q && n % 10 == r
  {
  }

  // ---------------------------------------------------------------- the generator's format

  function Prefix(isPermit: bool): string
  {
    if isPermit then "PMT" else "CC"
  }

  /** The sequence part: the counter's decimal form left-padded with `0` to at least three characters. */
  function SequenceField(counter: nat): (field: string)
    ensures AllDigits(field) && |field| >= 3
    ensures |field| == 3 <==> counter <= 999
    ensures DigitsValue(field) == counter
    ensures counter > 999 ==> field == Decimal(counter)
  {
    DecimalLength(counter, 3);
    DecimalRoundTrip(counter);
    PaddedValue(Decimal(counter), 3);
    PadStart(Decimal(counter), 3, '0')
  }

  lemma PaddedValue(digits: string, width: nat)
    requires AllDigits(digits)
    ensures AllDigits(PadStart(digits, width, '0'))
    ensures DigitsValue(PadStart(digits, width, '0')) == DigitsValue(digits)
  {
    if |digits| < width { LeadingZeros(width - |digits|, digits); }
  }

  /**
   * The reference number `generateReferenceNumber` builds for a given counter value. It starts
   * with `PMT` exactly for permits, which is what `addComplaint` reads back as `isPermit`.
   */
  function ReferenceNumber(isPermit: bool, typeCode: string, stamp: string, counter: nat): (r: string)
    ensures StartsWith(r, "PMT") <==> isPermit
  {
    var r := Prefix(isPermit) + "-" + typeCode + "-" + stamp + "-" + SequenceField(counter);
    assert !isPermit ==> r[1] == 'C';
    r
  }

  /** Splitting a reference on `-` gives back its four parts when type and date hold no `-`. */
  lemma ReferenceFields(isPermit: bool, typeCode: string, stamp: string, counter: nat)
    requires '-' !in typeCode && '-' !in stamp
    ensures Split(ReferenceNumber(isPermit, typeCode, stamp, counter), '-')
         == [Prefix(isPermit), typeCode, stamp, SequenceField(counter)]
  {
    var seqNo := SequenceField(counter);
    NoDashIn(seqNo);
    SplitFour(Prefix(isPermit), typeCode, stamp, seqNo, '-');
    assert ReferenceNumber(isPermit, typeCode, stamp, counter)
        == Prefix(isPermit) + ['-'] + typeCode + ['-'] + stamp + ['-'] + seqNo;
  }

  // ---------------------------------------------------------------- the status check's pattern

  /** Length of the `(CC|PMT)` alternative matching at `p`, 0 when neither does. */
  function PrefixLength(s: string, p: nat): nat
  {
    if p + 2 <= |s| && s[p] == 'C' && s[p + 1] == 'C' then 2
    else if p + 3 <= |s| && s[p] == 'P' && s[p + 1] == 'M' && s[p + 2] == 'T' then 3
    else 0
  }

  /** Number of consecutive `A`-`Z` characters from `i`: what the greedy `[A-Z]+` takes. */
  function UpperRun(s: string, i: nat): (n: nat)
    ensures n == 0 || i + n <= |s|
    ensures forall k :: i <= k < i + n ==> IsUpper(s[k])
    ensures i + n < |s| ==> !IsUpper(s[i + n])
    decreases |s| - i
  {
    if i < |s| && IsUpper(s[i]) then 1 + UpperRun(s, i + 1) else 0
  }

  predicate DigitsAt(s: string, i: nat, n: nat)
  {
    i + n <= |s| && forall k :: i <= k < i + n ==> IsDigit(s[k])
  }

  /**
   * Length of the match of `(CC|PMT)-[A-Z]+-\d{6}-\d{3}` starting at `p`, if there is one.
   * The letters are followed by `-`, which `[A-Z]` does not take, so backtracking into a
   * shorter run of letters never helps: the greedy run is the only candidate.
   */
  function MatchLength(s: string, p: nat): (m: Option<nat>)
    ensures m.Some? ==> p + m.value <= |s| && 15 <= m.value
                        && (StartsWith(s[p..], "CC-") || StartsWith(s[p..], "PMT-"))
  {
    var k := PrefixLength(s, p);
    var run := UpperRun(s, p + k + 1);
    var q := p + k + 1 + run;
    if k > 0 && p + k < |s| && s[p + k] == '-' && run > 0 && q + 11 <= |s|
       && s[q] == '-' && DigitsAt(s, q + 1, 6) && s[q + 7] == '-' && DigitsAt(s, q + 8, 3)
    then Some(k + 1 + run + 11)
    else None
  }

  /** The leftmost position at or after `from` where the pattern matches, as `String.match` reports it. */
  function FirstMatch(s: string, from: nat): (r: Option<nat>)
    ensures r.Some? ==> from <= r.value && MatchLength(s, r.value).Some?
    ensures r.Some? ==> forall p :: from <= p < r.value ==> MatchLength(s, p).None?
    ensures r.None? ==> forall p :: from <= p ==> MatchLength(s, p).None?
    decreases |s| - from
  {
    if from >= |s| then None
    else if MatchLength(s, from).Some? then Some(from)
    else FirstMatch(s, from + 1)
  }

  /** The dash-separated fields of a match: prefix, letters, six digits, three digits. */
  predicate PatternFields(parts: seq<string>)
  {
    && |parts| == 4
    && (parts[0] == "CC" || parts[0] == "PMT") && parts[1] != [] && AllUpper(parts[1])
    && |parts[2]| == 6 && AllDigits(parts[2]) && |parts[3]| == 3 && AllDigits(parts[3])
  }

  /** A match sits inside the text and has the four dash-separated fields of the pattern. */
  lemma MatchedText(s: string, p: nat)
    requires MatchLength(s, p).Some?
    ensures p + MatchLength(s, p).value <= |s|
    ensures PatternFields(Split(s[p..p + MatchLength(s, p).value], '-'))
  {
    var k := PrefixLength(s, p);
    var run := UpperRun(s, p + k + 1);
    var q := p + k + 1 + run;
    SliceAtDashes(s, p, p + k, q, q + 7, q + 11);
    FieldsOfMatch(s[p..q + 11], s[p..p + k], s[p + k + 1..q], s[q + 1..q + 7], s[q + 8..q + 11]);
  }

  /** A slice with dashes at `e1`, `e2` and `e3` is its four dash-free stretches joined by dashes. */
  lemma SliceAtDashes(s: string, p: nat, e1: nat, e2: nat, e3: nat, e: nat)
    requires p <= e1 < e2 < e3 < e <= |s|
    requires s[e1] == '-' && s[e2] == '-' && s[e3] == '-'
    ensures s[p..e] == s[p..e1] + ['-'] + s[e1 + 1..e2] + ['-'] + s[e2 + 1..e3] + ['-'] + s[e3 + 1..e]
  {
  }

  /** Four fields of the pattern's shapes, joined by dashes, split back into themselves. */
  lemma FieldsOfMatch(m: string, a: string, b: string, c: string, d: string)
    requires m == a + ['-'] + b + ['-'] + c + ['-'] + d
    requires (a == "CC" || a == "PMT") && b != [] && AllUpper(b)
    requires |c| == 6 && AllDigits(c) && |d| == 3 && AllDigits(d)
    ensures PatternFields(Split(m, '-'))
  {
    NoDashIn(b);
    NoDashIn(c);
    NoDashIn(d);
    SplitFour(a, b, c, d, '-');
  }

  lemma NoDashIn(s: string)
    requires AllUpper(s) || AllDigits(s)
    ensures '-' !in s
  {
    forall k | 0 <= k < |s| ensures s[k] != '-' {
      assert IsUpper(s[k]) || IsDigit(s[k]);
    }
  }

  datatype StatusReply = Found(refNumber: string, submittedOn: string) | NotFound

  /**
   * `handleStatusCheck`, without its canned text: the first reference in the message, and
   * the date field `refNumber.split('-')[2]` that the reply quotes as "Submitted on".
   */
  function StatusCheck(message: string): (r: StatusReply)
    ensures r.Found? <==> exists p :: MatchLength(message, p).Some?
    ensures r.Found? ==> |r.submittedOn| == 6 && AllDigits(r.submittedOn)
  {
    match FirstMatch(message, 0)
    case None => NotFound
    case Some(p) => ReplyAt(message, p)
  }

  /** The reply quoting the match at `p`: its text and its third field. */
  function ReplyAt(message: string, p: nat): (r: StatusReply)
    requires MatchLength(message, p).Some?
    ensures r.Found? && |r.submittedOn| == 6 && AllDigits(r.submittedOn)
  {
    MatchedText(message, p);
    var refNumber := message[p..p + MatchLength(message, p).value];
    Found(refNumber, Split(refNumber, '-')[2])
  }

  // ---------------------------------------------------------------- round trip

  /** The greedy run of letters is pinned down by where the letters stop. */
  lemma UpperRunIs(s: string, i: nat, n: nat)
    requires i + n <= |s|
    requires forall k :: i <= k < i + n ==> IsUpper(s[k])
    requires i + n < |s| ==> !IsUpper(s[i + n])
    ensures UpperRun(s, i) == n
  {
  }

  /** The generated reference with its sequence field cut to its first three digits. */
  function ReferenceHead(isPermit: bool, typeCode: string, stamp: string, seq3: string): string
  {
    Prefix(isPermit) + "-" + typeCode + "-" + stamp + "-" + seq3
  }

  /** The characters of a slice are those of the text it was cut from. */
  lemma InfixChars(s: string, p: nat, t: string)
    requires p + |t| <= |s| && s[p..p + |t|] == t
    ensures forall i :: p <= i < p + |t| ==> s[i] == t[i - p]
  {
    forall i | p <= i < p + |t| ensures s[i] == t[i - p] {
      assert s[p..p + |t|][i - p] == s[i];
    }
  }

  /** The text holds the reference head at `p`. */
  predicate HeadAt(s: string, p: nat, isPermit: bool, typeCode: string, stamp: string, seq3: string)
  {
    var t := ReferenceHead(isPermit, typeCode, stamp, seq3);
    p + |t| <= |s| && s[p..p + |t|] == t
  }

  /** A head's prefix and its dash are where the pattern looks for them. */
  lemma PrefixAt(s: string, p: nat, isPermit: bool, typeCode: string, stamp: string, seq3: string)
    requires HeadAt(s, p, isPermit, typeCode, stamp, seq3)
    ensures PrefixLength(s, p) == |Prefix(isPermit)| && s[p + |Prefix(isPermit)|] == '-'
  {
    var t := ReferenceHead(isPermit, typeCode, stamp, seq3);
    var k := |Prefix(isPermit)|;
    InfixChars(s, p, t);
    assert s[p] == t[0] && s[p + 1] == t[1];
    if isPermit { assert s[p + 2] == t[2]; }
    assert t[k] == '-';
  }

  /** A head's type code is the whole greedy run of letters after the prefix. */
  lemma TypeRunAt(s: string, p: nat, isPermit: bool, typeCode: string, stamp: string, seq3: string)
    requires AllUpper(typeCode)
    requires HeadAt(s, p, isPermit, typeCode, stamp, seq3)
    ensures var q := p + |Prefix(isPermit)| + 1 + |typeCode|;
            UpperRun(s, p + |Prefix(isPermit)| + 1) == |typeCode| && q < |s| && s[q] == '-'
  {
    var t := ReferenceHead(isPermit, typeCode, stamp, seq3);
    var k := |Prefix(isPermit)|;
    var e := p + k + 1 + |typeCode|;
    InfixChars(s, p, t);
    forall i | p + k + 1 <= i < e ensures IsUpper(s[i]) {
      assert t[i - p] == typeCode[i - p - k - 1];
    }
    assert t[k + 1 + |typeCode|] == '-';
    UpperRunIs(s, p + k + 1, |typeCode|);
  }

  /** A head's date and sequence digits sit in the pattern's two digit groups. */
  lemma DigitGroupsAt(s: string, p: nat, isPermit: bool, typeCode: string, stamp: string, seq3: string)
    requires |stamp| == 6 && AllDigits(stamp) && |seq3| == 3 && AllDigits(seq3)
    requires HeadAt(s, p, isPermit, typeCode, stamp, seq3)
    ensures var q := p + |Prefix(isPermit)| + 1 + |typeCode|;
            q + 11 <= |s| && DigitsAt(s, q + 1, 6) && s[q + 7] == '-' && DigitsAt(s, q + 8, 3)
  {
    var t := ReferenceHead(isPermit, typeCode, stamp, seq3);
    var k := |Prefix(isPermit)|;
    var e := p + k + 1 + |typeCode|;
    InfixChars(s, p, t);
    forall i | e + 1 <= i < e + 7 ensures IsDigit(s[i]) {
      assert t[i - p] == stamp[i - e - 1];
    }
    assert t[k + |typeCode| + 8] == '-';
    forall i | e + 8 <= i < e + 11 ensures IsDigit(s[i]) {
      assert t[i - p] == seq3[i - e - 8];
    }
  }

  /** The pattern matches a reference head wherever one starts. */
  lemma MatchAtReference(s: string, p: nat, isPermit: bool, typeCode: string, stamp: string, seq3: string)
    requires typeCode != [] && AllUpper(typeCode) && |stamp| == 6 && AllDigits(stamp)
    requires |seq3| == 3 && AllDigits(seq3)
    requires HeadAt(s, p, isPermit, typeCode, stamp, seq3)
    ensures MatchLength(s, p) == Some(|ReferenceHead(isPermit, typeCode, stamp, seq3)|)
  {
    PrefixAt(s, p, isPermit, typeCode, stamp, seq3);
    TypeRunAt(s, p, isPermit, typeCode, stamp, seq3);
    DigitGroupsAt(s, p, isPermit, typeCode, stamp, seq3);
  }

  /**
   * A match that begins before position `j` ends before `j` when a reference starts at `j`:
   * a reference opens with `CC-` or `PMT-` and a letter, and every position of a match holds a
   * letter of its prefix, a dash, a letter of its run or a digit, in an order that cannot take
   * that opening across its start.
   */
  lemma MatchEndsBefore(s: string, p: nat, j: nat, n: nat)
    requires MatchLength(s, p).Some? && p < j
    requires n == 2 || n == 3
    requires j + n + 2 <= |s|
    requires s[j] == 'C' || s[j] == 'P'
    requires forall i :: j <= i < j + n ==> IsUpper(s[i])
    requires s[j + n] == '-' && IsUpper(s[j + n + 1])
    ensures p + MatchLength(s, p).value <= j
  {
    var k := PrefixLength(s, p);
    var run := UpperRun(s, p + k + 1);
    var q := p + k + 1 + run;
    if j < q + 11 {
      if j < p + k {
        assert false;
      } else if j == p + k {
        assert false;
      } else if j < q {
        UpperRunIs(s, j, n);
        assert false;
      } else {
        assert false;
      }
    }
  }

  /** A match that lies inside `pre` is a match of `pre` alone. */
  lemma MatchLocal(pre: string, rest: string, p: nat)
    requires MatchLength(pre + rest, p).Some?
    requires p + MatchLength(pre + rest, p).value <= |pre|
    ensures MatchLength(pre, p) == MatchLength(pre + rest, p)
  {
    var s := pre + rest;
    var k := PrefixLength(s, p);
    var run := UpperRun(s, p + k + 1);
    var q := p + k + 1 + run;
    assert forall i :: 0 <= i < |pre| ==> pre[i] == s[i];
    assert PrefixLength(pre, p) == k;
    UpperRunIs(pre, p + k + 1, run);
  }

  /** No match begins in text without a reference when a reference follows it. */
  lemma NoMatchBefore(pre: string, rest: string, isPermit: bool, c0: char)
    requires StatusCheck(pre) == NotFound
    requires IsUpper(c0)
    requires var h := Prefix(isPermit) + "-" + [c0]; |h| <= |rest| && rest[..|h|] == h
    ensures forall p :: 0 <= p < |pre| ==> MatchLength(pre + rest, p).None?
  {
    var s := pre + rest;
    var j := |pre|;
    var h := Prefix(isPermit) + "-" + [c0];
    var n := |Prefix(isPermit)|;
    assert forall i :: j <= i < j + |h| ==> s[i] == h[i - j];
    forall p | 0 <= p < j ensures MatchLength(s, p).None? {
      if MatchLength(s, p).Some? {
        MatchEndsBefore(s, p, j, n);
        MatchLocal(pre, rest, p);
      }
    }
  }

  /** A generated reference is its head followed by the sequence digits past the third. */
  lemma ReferenceIsHeadPlusTail(isPermit: bool, typeCode: string, stamp: string, counter: nat)
    ensures var seqNo := SequenceField(counter);
            ReferenceNumber(isPermit, typeCode, stamp, counter)
            == ReferenceHead(isPermit, typeCode, stamp, seqNo[..3]) + seqNo[3..]
  {
    var seqNo := SequenceField(counter);
    assert seqNo == seqNo[..3] + seqNo[3..];
  }

  /** The date field of a reference head is its third dash-separated field. */
  lemma HeadFields(isPermit: bool, typeCode: string, stamp: string, seq3: string)
    requires AllUpper(typeCode) && AllDigits(stamp) && AllDigits(seq3)
    ensures Split(ReferenceHead(isPermit, typeCode, stamp, seq3), '-') == [Prefix(isPermit), typeCode, stamp, seq3]
  {
    NoDashIn(typeCode);
    NoDashIn(stamp);
    NoDashIn(seq3);
    SplitFour(Prefix(isPermit), typeCode, stamp, seq3, '-');
    assert ReferenceHead(isPermit, typeCode, stamp, seq3)
        == Prefix(isPermit) + ['-'] + typeCode + ['-'] + stamp + ['-'] + seq3;
  }

  /** The leftmost match is at `j` when one is there and none starts earlier. */
  lemma FirstMatchAt(s: string, j: nat)
    requires MatchLength(s, j).Some?
    requires forall p :: 0 <= p < j ==> MatchLength(s, p).None?
    ensures FirstMatch(s, 0) == Some(j)
  {
  }

  /** The status check's reply for a leftmost match `m` whose third field is `date`. */
  lemma StatusCheckIs(s: string, j: nat, m: string, date: string)
    requires FirstMatch(s, 0) == Some(j) && MatchLength(s, j) == Some(|m|)
    requires j + |m| <= |s| && s[j..j + |m|] == m
    requires var parts := Split(m, '-'); |parts| >= 3 && parts[2] == date
    ensures StatusCheck(s) == Found(m, date)
  {
    ReplyAtIs(s, j, m, date);
  }

  lemma ReplyAtIs(s: string, j: nat, m: string, date: string)
    requires MatchLength(s, j) == Some(|m|)
    requires j + |m| <= |s| && s[j..j + |m|] == m
    requires var parts := Split(m, '-'); |parts| >= 3 && parts[2] == date
    ensures ReplyAt(s, j) == Found(m, date)
  {
  }

  /** A reference head followed by any text opens with its prefix, a dash and a letter. */
  lemma HeadOpening(isPermit: bool, typeCode: string, stamp: string, seq3: string, post: string)
    requires typeCode != [] && AllUpper(typeCode)
    ensures var h := Prefix(isPermit) + "-" + [typeCode[0]];
            var rest := ReferenceHead(isPermit, typeCode, stamp, seq3) + post;
            |h| <= |rest| && rest[..|h|] == h
  {
    var t := ReferenceHead(isPermit, typeCode, stamp, seq3);
    var h := Prefix(isPermit) + "-" + [typeCode[0]];
    assert forall i :: 0 <= i < |h| ==> (t + post)[i] == t[i] == h[i];
  }

  /** The pattern matches at the position where a reference head is placed. */
  lemma HeadInText(pre: string, post: string, isPermit: bool, typeCode: string, stamp: string, seq3: string)
    requires typeCode != [] && AllUpper(typeCode) && |stamp| == 6 && AllDigits(stamp)
    requires |seq3| == 3 && AllDigits(seq3)
    ensures var t := ReferenceHead(isPermit, typeCode, stamp, seq3);
            var s := pre + (t + post);
            MatchLength(s, |pre|) == Some(|t|) && s[|pre|..|pre| + |t|] == t
  {
    var t := ReferenceHead(isPermit, typeCode, stamp, seq3);
    var s := pre + (t + post);
    assert s[|pre|..|pre| + |t|] == t;
    MatchAtReference(s, |pre|, isPermit, typeCode, stamp, seq3);
  }

  /** The status check reads a reference head back in full, with its date. */
  lemma StatusCheckOfHead(pre: string, post: string, isPermit: bool, typeCode: string, stamp: string, seq3: string)
    requires typeCode != [] && AllUpper(typeCode) && |stamp| == 6 && AllDigits(stamp)
    requires |seq3| == 3 && AllDigits(seq3)
    requires StatusCheck(pre) == NotFound
    ensures var t := ReferenceHead(isPermit, typeCode, stamp, seq3);
            StatusCheck(pre + (t + post)) == Found(t, stamp)
  {
    var t := ReferenceHead(isPermit, typeCode, stamp, seq3);
    HeadInText(pre, post, isPermit, typeCode, stamp, seq3);
    HeadOpening(isPermit, typeCode, stamp, seq3, post);
    NoMatchBefore(pre, t + post, isPermit, typeCode[0]);
    FirstMatchAt(pre + (t + post), |pre|);
    HeadFields(isPermit, typeCode, stamp, seq3);
    StatusCheckIs(pre + (t + post), |pre|, t, stamp);
  }

  /**
   * Round trip between generator and status check: whatever text surrounds a generated
   * reference (as long as the text before it holds no reference of its own), the status check
   * reads the reference's own date back, and it returns exactly the reference while the
   * counter has at most three digits; from 1000 on it returns a strict prefix of it, cut after
   * the third sequence digit.
   */
  lemma StatusCheckFindsReference(pre: string, post: string, isPermit: bool, typeCode: string, stamp: string, counter: nat)
    requires typeCode != [] && AllUpper(typeCode) && |stamp| == 6 && AllDigits(stamp)
    requires StatusCheck(pre) == NotFound
    ensures var ref := ReferenceNumber(isPermit, typeCode, stamp, counter);
            var reply := StatusCheck(pre + ref + post);
            && reply.Found?
            && reply.submittedOn == stamp
            && (counter <= 999 ==> reply.refNumber == ref)
            && (counter > 999 ==> |reply.refNumber| < |ref| && reply.refNumber == ref[..|reply.refNumber|])
  {
    var ref := ReferenceNumber(isPermit, typeCode, stamp, counter);
    var seqNo := SequenceField(counter);
    var t := ReferenceHead(isPermit, typeCode, stamp, seqNo[..3]);
    ReferenceIsHeadPlusTail(isPermit, typeCode, stamp, counter);
    assert pre + ref + post == pre + (t + (seqNo[3..] + post));
    StatusCheckOfHead(pre, seqNo[3..] + post, isPermit, typeCode, stamp, seqNo[..3]);
    assert ref[..|t|] == t;
  }
}
