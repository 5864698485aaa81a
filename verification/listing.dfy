/** The queue listing command: one line per queued song, numbered from 1 in
    queue order, written "<number>. <title>". */
module Listing {
  import opened VoiceTypes
  import opened Queues

  predicate IsDigit(c: char) { '0' <= c <= '9' }

  predicate AllDigits(s: string) { forall i :: 0 <= i < |s| ==> IsDigit(s[i]) }

  function DigitChar(d: nat): (c: char)
    requires d < 10
    ensures IsDigit(c) && (c as int) - ('0' as int) == d
  {
    (('0' as int) + d) as char
  }

  /** The decimal writing of a natural number, without leading zeros. */
  function NatToString(n: nat): (s: string)
    ensures |s| >= 1 && AllDigits(s)
    ensures |s| > 1 ==> s[0] != '0'
    decreases n
  {
    if n < 10 then [DigitChar(n)]
    else
      var high := NatToString(n / 10);
      high + [DigitChar(n % 10)]
  }

  /** The number a string of decimal digits denotes. */
  function DigitsValue(s: string): nat
    requires AllDigits(s)
    decreases |s|
  {
    if s == [] then 0
    else DigitsValue(s[..|s| - 1]) * 10 + ((s[|s| - 1] as int) - ('0' as int))
  }

  /** Reading back a number's decimal writing gives the number. */
  lemma {:induction false} DecimalRoundTrip(n: nat)
    ensures DigitsValue(NatToString(n)) == n
    decreases n
  {
    if n >= 10 {
      DecimalRoundTrip(n / 10);
      var s := NatToString(n);
      assert s[..|s| - 1] == NatToString(n / 10);
    }
  }

  lemma {:induction false} LeadingDigitPositive(s: string)
    requires |s| >= 1 && AllDigits(s) && s[0] != '0'
    ensures DigitsValue(s) >= 1
    decreases |s|
  {
    if |s| > 1 {
      var init := s[..|s| - 1];
      assert init[0] == s[0];
      LeadingDigitPositive(init);
    }
  }

  /** Writing the number a canonical digit string denotes gives the string back. */
  lemma {:induction false} CanonicalRoundTrip(s: string)
    requires Canonical(s)
    ensures NatToString(DigitsValue(s)) == s
    decreases |s|
  {
    var c := s[|s| - 1];
    var v := (c as int) - ('0' as int);
    assert DigitChar(v) == c;
    if |s| > 1 {
      var init := s[..|s| - 1];
      assert init[0] == s[0];
      LeadingDigitPositive(init);
      CanonicalRoundTrip(init);
      var n := DigitsValue(s);
      assert n == DigitsValue(init) * 10 + v;
      assert n / 10 == DigitsValue(init) && n % 10 == v;
      assert s == init + [c];
    }
  }

  /** One line of the listing. */
  function RenderLine(number: nat, title: string): string
  {
    NatToString(number) + ". " + title
  }

  /** The index of the first `c` in `s`, or |s| when there is none. */
  function FirstIndex(s: string, c: char): (k: nat)
    ensures k <= |s|
    ensures forall i :: 0 <= i < k ==> s[i] != c
    ensures k < |s| ==> s[k] == c
    decreases |s|
  {
    if s == [] then 0
    else if s[0] == c then 0
    else
      var k := 1 + FirstIndex(s[1..], c);
      assert forall i :: 1 <= i < k ==> s[i] == s[1..][i - 1];
      k
  }

  /** A decimal writing as Python's str gives it: digits, no leading zero. */
  predicate Canonical(s: string)
  {
    |s| >= 1 && AllDigits(s) && (|s| > 1 ==> s[0] != '0')
  }

  /** Reads a listing line back into its number and title. */
  function ParseLine(line: string): Option<(nat, string)>
  {
    var k := FirstIndex(line, '.');
    if 0 < k && k + 1 < |line| && line[k + 1] == ' ' && Canonical(line[..k])
    then Some((DigitsValue(line[..k]), line[k + 2..]))
    else None
  }

  /** A rendered line determines its number and title: the title may hold any
      text, since the number before the first dot has no dot in it. */
  lemma {:induction false} ParseRenderLine(number: nat, title: string)
    ensures ParseLine(RenderLine(number, title)) == Some((number, title))
  {
    var d := NatToString(number);
    var line := RenderLine(number, title);
    assert line[|d|] == '.' && line[|d| + 1] == ' ';
    var k := FirstIndex(line, '.');
    assert forall i :: 0 <= i < |d| ==> line[i] == d[i];
    assert k == |d|;
    assert line[..k] == d;
    assert line[k + 2..] == title;
    DecimalRoundTrip(number);
  }

  /** Conversely, a line that reads back as a number and a title is exactly
      the rendering of that number and title. */
  lemma {:induction false} ParsedLineIsRendered(line: string)
    requires ParseLine(line).Some?
    ensures line == RenderLine(ParseLine(line).value.0, ParseLine(line).value.1)
  {
    var k := FirstIndex(line, '.');
    CanonicalRoundTrip(line[..k]);
    assert line == line[..k] + ". " + line[k + 2..];
  }

  /** The numbered lines of a queue. */
  function NumberedLines(q: seq<Song>): (lines: seq<string>)
    ensures |lines| == |q|
  {
    seq(|q|, i requires 0 <= i < |q| => RenderLine(i + 1, q[i].title))
  }

  lemma NumberedLinesParse(q: seq<Song>)
    ensures forall i :: 0 <= i < |q| ==> ParseLine(NumberedLines(q)[i]) == Some((i + 1, q[i].title))
  {
    forall i | 0 <= i < |q|
      ensures ParseLine(NumberedLines(q)[i]) == Some((i + 1, q[i].title))
    {
      ParseRenderLine(i + 1, q[i].title);
    }
  }

  /** The reply of the queue command: the empty reply when the guild has no
      queue or an empty one, otherwise one line per song in queue order,
      numbered 1 to n. The store is only read. */
  function QueueListing(qs: QueueStore, g: GuildId): (r: QueueReply)
    ensures r.EmptyQueue? <==> g !in qs || qs[g] == []
    ensures r.CurrentQueue? ==>
      |r.lines| == |qs[g]| &&
      forall i :: 0 <= i < |r.lines| ==> ParseLine(r.lines[i]) == Some((i + 1, qs[g][i].title))
  {
    if g in qs && qs[g] != [] then
      NumberedLinesParse(qs[g]);
      CurrentQueue(NumberedLines(qs[g]))
    else EmptyQueue
  }
}
