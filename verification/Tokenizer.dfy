/** The three "split on CR or LF" implementations and the scanner loop that drives two of them.
  *
  * `bufio.Scanner` is modelled as it behaves: it grows a buffer up to `MAX_TOKEN` bytes, reads
  * whatever the pipe happens to deliver, hands the pending bytes to the split function and stops
  * with "token too long" once a full buffer holds no delimiter.
  */
module Tokenizer {
  import opened Common

  newtype byte = x: int | 0 <= x < 256
  type Bytes = seq<byte>

  const LF: byte := 10
  const CR: byte := 13

  /** bufio.MaxScanTokenSize. */
  const MAX_TOKEN: nat := 65536
  /** bufio's initial buffer size. */
  const START_BUFFER: nat := 4096

  predicate IsDelim(b: byte) {
    b == LF || b == CR
  }

  predicate DelimFree(s: Bytes) {
    forall k | 0 <= k < |s| :: !IsDelim(s[k])
  }

  /** The index of the first delimiter, or `|s|` when there is none. */
  function FirstDelim(s: Bytes): (i: nat)
    ensures i <= |s|
    ensures forall k | 0 <= k < i :: !IsDelim(s[k])
    ensures i < |s| ==> IsDelim(s[i])
  {
    if s == [] || IsDelim(s[0]) then 0 else 1 + FirstDelim(s[1..])
  }

  /** The number of delimiters `s` starts with. */
  function DelimRun(s: Bytes): (n: nat)
    ensures n <= |s|
    ensures forall k | 0 <= k < n :: IsDelim(s[k])
    ensures n < |s| ==> !IsDelim(s[n])
  {
    if s == [] || !IsDelim(s[0]) then 0 else 1 + DelimRun(s[1..])
  }

  lemma {:induction false} FirstDelimIs(s: Bytes, i: nat)
    requires i <= |s| && (forall k | 0 <= k < i :: !IsDelim(s[k])) && (i < |s| ==> IsDelim(s[i]))
    ensures FirstDelim(s) == i
  {
    var j := FirstDelim(s);
  }

  // ----- The split functions -----

  datatype SplitFunc = ScanCR | SplitOnCRLF

  /** What a split function returns: bytes to consume and, unless it wants more input, a token. */
  datatype SplitResult = SplitResult(advance: nat, token: Option<Bytes>)

  /** What the two split functions compute; they differ only in how many delimiters they consume. */
  function Split(f: SplitFunc, data: Bytes, atEOF: bool): (r: SplitResult)
    ensures r.advance <= |data|
    ensures r.token.Some? ==> 0 < r.advance
  {
    var i := FirstDelim(data);
    if i < |data| then
      var extra := if f.ScanCR? then 0 else DelimRun(data[i + 1..]);
      SplitResult(i + 1 + extra, Some(data[..i]))
    else if atEOF && data != [] then
      SplitResult(|data|, Some(data))
    else
      SplitResult(0, None)
  }

  method ScanCRSplit(data: Bytes, atEOF: bool) returns (r: SplitResult)
    ensures r == Split(ScanCR, data, atEOF)
  {
    for i := 0 to |data|
      invariant forall k | 0 <= k < i :: !IsDelim(data[k])
    {
      if IsDelim(data[i]) {
        FirstDelimIs(data, i);
        return SplitResult(i + 1, Some(data[..i]));
      }
    }
    FirstDelimIs(data, |data|);
    if atEOF && |data| > 0 {
      return SplitResult(|data|, Some(data));
    }
    return SplitResult(0, None);
  }

  method SplitOnCRLFSplit(data: Bytes, atEOF: bool) returns (r: SplitResult)
    ensures r == Split(SplitOnCRLF, data, atEOF)
  {
    if atEOF && |data| == 0 {
      return SplitResult(0, None);
    }
    var i := 0;
    while i < |data|
      invariant i <= |data| && forall k | 0 <= k < i :: !IsDelim(data[k])
    {
      if IsDelim(data[i]) {
        FirstDelimIs(data, i);
        var j := i + 1;
        while j < |data| && IsDelim(data[j])
          invariant i + 1 <= j <= |data|
          invariant forall k | i + 1 <= k < j :: IsDelim(data[k])
        {
          j := j + 1;
        }
        DelimRunIs(data[i + 1..], j - i - 1);
        return SplitResult(j, Some(data[..i]));
      }
      i := i + 1;
    }
    FirstDelimIs(data, |data|);
    if atEOF {
      return SplitResult(|data|, Some(data));
    }
    return SplitResult(0, None);
  }

  lemma {:induction false} DelimRunIs(s: Bytes, n: nat)
    requires n <= |s| && (forall k | 0 <= k < n :: IsDelim(s[k])) && (n < |s| ==> !IsDelim(s[n]))
    ensures DelimRun(s) == n
  {
    var m := DelimRun(s);
  }

  // ----- The whole-input reference -----

  /** The tokens a scan delivers and whether it stopped on an over-long line. */
  datatype ScanResult = ScanResult(tokens: seq<Bytes>, tooLong: bool)

  /** Scanning `s` as if it arrived in one piece: the lines of `s`, up to the first over-long one. */
  function Lines(s: Bytes): ScanResult {
    var i := FirstDelim(s);
    if i >= MAX_TOKEN then ScanResult([], true)
    else if i == |s| then ScanResult(if s == [] then [] else [s], false)
    else
      var r := Lines(s[i + 1..]);
      ScanResult([s[..i]] + r.tokens, r.tooLong)
  }

  function NonEmpty(tokens: seq<Bytes>): seq<Bytes> {
    if tokens == [] then []
    else (if tokens[0] == [] then [] else [tokens[0]]) + NonEmpty(tokens[1..])
  }

  /** strings.FieldsFunc on CR and LF: the maximal delimiter-free runs. */
  function SplitOutput(s: Bytes): seq<Bytes>
    decreases |s|
  {
    if s == [] then []
    else if IsDelim(s[0]) then SplitOutput(s[1..])
    else
      var i := FirstDelim(s);
      [s[..i]] + SplitOutput(s[i..])
  }

  /** Every delimiter-free stretch of the input is shorter than the scanner's buffer limit. */
  predicate NoLongLine(s: Bytes) {
    forall lo, hi | 0 <= lo <= hi <= |s| && DelimFree(s[lo..hi]) :: hi - lo < 65536
  }

  lemma {:induction false} NonEmptyConcat(a: seq<Bytes>, b: seq<Bytes>)
    ensures NonEmpty(a + b) == NonEmpty(a) + NonEmpty(b)
  {
    if a == [] {
      assert a + b == b;
    } else {
      assert (a + b)[1..] == a[1..] + b;
      NonEmptyConcat(a[1..], b);
    }
  }

  /** Delimiters in front of the input produce only empty tokens. */
  lemma {:induction false} LeadingDelims(s: Bytes, n: nat)
    requires n <= |s| && forall k | 0 <= k < n :: IsDelim(s[k])
    ensures NonEmpty(Lines(s).tokens) == NonEmpty(Lines(s[n..]).tokens)
    ensures Lines(s).tooLong == Lines(s[n..]).tooLong
  {
    if n == 0 {
      assert s[0..] == s;
    } else {
      LeadingDelims(s[1..], n - 1);
      assert s[1..][n - 1..] == s[n..];
      FirstDelimIs(s, 0);
      NonEmptyConcat([s[..0]], Lines(s[1..]).tokens);
    }
  }

  // ----- The driver -----

  /** Applies the split function the scanner was configured with. */
  method ApplySplit(f: SplitFunc, data: Bytes, atEOF: bool) returns (r: SplitResult)
    ensures r == Split(f, data, atEOF)
  {
    match f
    case ScanCR => r := ScanCRSplit(data, atEOF);
    case SplitOnCRLF => r := SplitOnCRLFSplit(data, atEOF);
  }

  /** `done` then the lines `ahead` make up the `whole` scan; exactly for ScanCR, up to empty
    * tokens for SplitOnCRLF. */
  ghost predicate Accounts(f: SplitFunc, whole: ScanResult, done: seq<Bytes>, ahead: ScanResult) {
    && whole.tooLong == ahead.tooLong
    && NonEmpty(whole.tokens) == NonEmpty(done) + NonEmpty(ahead.tokens)
    && (f.ScanCR? ==> whole.tokens == done + ahead.tokens)
  }

  /** A delimiter already in the buffer is the first delimiter of all that is left. */
  lemma {:induction false} BufferedLine(pending: Bytes, rest: Bytes)
    requires FirstDelim(pending) < |pending| <= MAX_TOKEN
    ensures
      var i := FirstDelim(pending);
      var tail := Lines(pending[i + 1..] + rest);
      Lines(pending + rest) == ScanResult([pending[..i]] + tail.tokens, tail.tooLong)
  {
    var s := pending + rest;
    var i := FirstDelim(pending);
    FirstDelimIs(s, i);
    hide FirstDelim;
    assert s[..i] == pending[..i] && s[i + 1..] == pending[i + 1..] + rest;
    assert s[i + 1..] == pending[i + 1..] + rest;
  }

  lemma {:induction false} AccountsStep(f: SplitFunc, whole: ScanResult, done: seq<Bytes>, t: Bytes,
                     ahead: ScanResult, after: ScanResult)
    requires Accounts(f, whole, done, ScanResult([t] + ahead.tokens, ahead.tooLong))
    requires after.tooLong == ahead.tooLong && NonEmpty(after.tokens) == NonEmpty(ahead.tokens)
    requires f.ScanCR? ==> after == ahead
    ensures Accounts(f, whole, done + [t], after)
  {
    NonEmptyConcat(done, [t]);
    NonEmptyConcat([t], ahead.tokens);
    hide NonEmpty;
    assert done + ([t] + ahead.tokens) == (done + [t]) + ahead.tokens;
    assert NonEmpty(done) + (NonEmpty([t]) + NonEmpty(ahead.tokens)) == (NonEmpty(done) + NonEmpty([t])) + NonEmpty(ahead.tokens);
  }

  /** Consuming `extra` buffered delimiters along with a line loses only empty tokens. */
  lemma {:induction false} SkippedDelims(pending: Bytes, rest: Bytes, from: nat, extra: nat)
    requires from + extra <= |pending|
    requires forall k | from <= k < from + extra :: IsDelim(pending[k])
    ensures
      var tail, after := Lines(pending[from..] + rest), Lines(pending[from + extra..] + rest);
      after.tooLong == tail.tooLong && NonEmpty(after.tokens) == NonEmpty(tail.tokens)
  {
    var tail := pending[from..] + rest;
    LeadingDelims(tail, extra);
    assert tail[extra..] == pending[from + extra..] + rest;
  }

  /** A delimited token is the line before the first delimiter; only delimiters are consumed with it. */
  lemma {:induction false} TokenShape(f: SplitFunc, pending: Bytes, atEOF: bool)
    requires FirstDelim(pending) < |pending|
    ensures
      var i, r := FirstDelim(pending), Split(f, pending, atEOF);
      && r.token == Some(pending[..i]) && i + 1 <= r.advance <= |pending|
      && (f.ScanCR? ==> r.advance == i + 1)
      && forall k | i + 1 <= k < r.advance :: IsDelim(pending[k])
  {
    var i, r := FirstDelim(pending), Split(f, pending, atEOF);
    assert forall k | i + 1 <= k < r.advance :: pending[k] == pending[i + 1..][k - (i + 1)];
  }

  lemma {:induction false} TokenStep(f: SplitFunc, whole: ScanResult, done: seq<Bytes>, pending: Bytes, rest: Bytes, advance: nat)
    requires FirstDelim(pending) < |pending| <= MAX_TOKEN && FirstDelim(pending) + 1 <= advance <= |pending|
    requires f.ScanCR? ==> advance == FirstDelim(pending) + 1
    requires forall k | FirstDelim(pending) + 1 <= k < advance :: IsDelim(pending[k])
    requires Accounts(f, whole, done, Lines(pending + rest))
    ensures Accounts(f, whole, done + [pending[..FirstDelim(pending)]], Lines(pending[advance..] + rest))
  {
    hide *;
    BufferedLine(pending, rest);
    var i := FirstDelim(pending);
    SkippedDelims(pending, rest, i + 1, advance - (i + 1));
    AccountsStep(f, whole, done, pending[..i], Lines(pending[i + 1..] + rest), Lines(pending[advance..] + rest));
  }

  lemma {:induction false} LastTokenStep(f: SplitFunc, whole: ScanResult, done: seq<Bytes>, pending: Bytes)
    requires FirstDelim(pending) == |pending| < MAX_TOKEN && pending != []
    requires Accounts(f, whole, done, Lines(pending))
    ensures Accounts(f, whole, done + [pending], Lines([]))
  {
    assert Lines([]) == ScanResult([], false);
    assert [pending] + Lines([]).tokens == [pending];
    AccountsStep(f, whole, done, pending, Lines([]), Lines([]));
  }

  /** A full buffer without a delimiter is a line that does not fit. */
  lemma {:induction false} FullBuffer(pending: Bytes, rest: Bytes)
    requires FirstDelim(pending) == |pending| == MAX_TOKEN
    ensures Lines(pending + rest) == ScanResult([], true)
  {
    var s := pending + rest;
    var i := FirstDelim(s);
    assert forall k | 0 <= k < |pending| :: !IsDelim(s[k]);
  }

  lemma {:induction false} ScanStarts(f: SplitFunc, input: Bytes)
    ensures Accounts(f, Lines(input), [], Lines([] + input))
  {
    hide Lines, NonEmpty;
    assert [] + input == input;
    assert [] + Lines(input).tokens == Lines(input).tokens;
    NonEmptyConcat([], Lines(input).tokens);
  }

  /** With nothing ahead, what was done is the whole scan. */
  lemma {:induction false} ScanEnds(f: SplitFunc, whole: ScanResult, done: seq<Bytes>, ahead: ScanResult)
    requires Accounts(f, whole, done, ahead) && ahead.tokens == []
    ensures whole.tooLong == ahead.tooLong && NonEmpty(done) == NonEmpty(whole.tokens)
    ensures f.ScanCR? ==> whole == ScanResult(done, ahead.tooLong)
  {
    assert done + [] == done && NonEmpty(done) + [] == NonEmpty(done);
  }

  /** The Scan loop of bufio.Scanner over a pipe holding `input`. Each read delivers some non-empty
    * piece of what is left that fits the free buffer space, chosen arbitrarily. */
  method Scan(f: SplitFunc, input: Bytes) returns (out: ScanResult)
    ensures out.tooLong == Lines(input).tooLong
    ensures NonEmpty(out.tokens) == NonEmpty(Lines(input).tokens)
    ensures f.ScanCR? ==> out == Lines(input)
  {
    hide Lines, NonEmpty, Accounts, IsDelim;
    var tokens: seq<Bytes> := [];
    var pending, rest: Bytes := [], input;
    var capacity, atEOF := 0, false;
    ghost var whole := Lines(input);
    ScanStarts(f, input);
    while true
      invariant |pending| <= capacity <= MAX_TOKEN
      invariant atEOF ==> rest == [] && |pending| < MAX_TOKEN
      invariant Accounts(f, whole, tokens, Lines(pending + rest))
      decreases |rest|, !atEOF, |pending|
    {
      if pending != [] || atEOF {
        var r := ApplySplit(f, pending, atEOF);
        if r.token.Some? {
          if FirstDelim(pending) < |pending| {
            TokenShape(f, pending, atEOF);
            TokenStep(f, whole, tokens, pending, rest, r.advance);
          } else {
            assert pending + rest == pending && pending[r.advance..] + rest == [];
            LastTokenStep(f, whole, tokens, pending);
          }
          pending, tokens := pending[r.advance..], tokens + [r.token.value];
          continue;
        }
      }
      if atEOF {
        assert pending + rest == [];
        NothingLeft();
        ScanEnds(f, whole, tokens, Lines(pending + rest));
        return ScanResult(tokens, false);
      }
      if |pending| == capacity {
        if capacity >= MAX_TOKEN {
          FullBuffer(pending, rest);
          ScanEnds(f, whole, tokens, Lines(pending + rest));
          return ScanResult(tokens, true);
        }
        capacity := if capacity == 0 then START_BUFFER
                    else if 2 * capacity < MAX_TOKEN then 2 * capacity else MAX_TOKEN;
      }
      if rest == [] {
        atEOF := true;
      } else {
        var n: nat :| 1 <= n <= |rest| && n <= capacity - |pending|;
        assert pending + rest[..n] + rest[n..] == pending + rest;
        pending, rest := pending + rest[..n], rest[n..];
      }
    }
  }

  lemma {:induction false} NothingLeft()
    ensures Lines([]) == ScanResult([], false)
  {
  }

  // ----- Agreement with splitOutput -----

  lemma {:induction false} WindowsOfTail(s: Bytes, i: nat)
    requires i <= |s| && NoLongLine(s)
    ensures NoLongLine(s[i..])
  {
    var t := s[i..];
    forall lo, hi | 0 <= lo <= hi <= |t| && DelimFree(t[lo..hi])
      ensures hi - lo < MAX_TOKEN
    {
      assert s[lo + i..hi + i] == t[lo..hi];
    }
  }

  lemma {:induction false} WindowsAround(s: Bytes, i: nat)
    requires i < |s| && IsDelim(s[i]) && i < MAX_TOKEN && NoLongLine(s[i + 1..])
    ensures NoLongLine(s)
  {
    var t := s[i + 1..];
    forall lo, hi | 0 <= lo <= hi <= |s| && DelimFree(s[lo..hi])
      ensures hi - lo < MAX_TOKEN
    {
      if i < lo {
        assert t[lo - i - 1..hi - i - 1] == s[lo..hi];
      } else {
        assert forall k | lo <= k < hi :: s[k] == s[lo..hi][k - lo];
      }
    }
  }

  /** The scan stops early exactly when some line does not fit the buffer, and its non-empty tokens
    * are the fields of the whole output exactly when none is that long. */
  lemma {:induction false} TokensAgree(s: Bytes)
    ensures Lines(s).tooLong == !NoLongLine(s)
    ensures NonEmpty(Lines(s).tokens) == SplitOutput(s) <==> NoLongLine(s)
    ensures NonEmpty(Lines(s).tokens) <= SplitOutput(s)
    decreases |s|
  {
    var i := FirstDelim(s);
    if i >= MAX_TOKEN {
      assert DelimFree(s[0..i]);
      assert SplitOutput(s) != [];
    } else if i == |s| {
      OneLine(s);
    } else {
      var tail := s[i + 1..];
      TokensAgree(tail);
      LinesStep(s, i);
      FieldsStep(s, i);
      if NoLongLine(s) {
        WindowsOfTail(s, i + 1);
      } else if NoLongLine(tail) {
        WindowsAround(s, i);
      }
      PrependAgrees(if i == 0 then [] else [s[..i]], NonEmpty(Lines(tail).tokens), SplitOutput(tail));
    }
  }

  /** A line that fills the buffer makes the scanner stop with nothing, where splitOutput has one field. */
  lemma {:induction false} LongLineLost(s: Bytes)
    requires |s| >= 65536 && DelimFree(s)
    ensures Lines(s) == ScanResult([], true) && SplitOutput(s) == [s]
  {
    FirstDelimIs(s, |s|);
    assert s[..|s|] == s && s[|s|..] == [];
  }

  lemma {:induction false} PrependAgrees(head: seq<Bytes>, a: seq<Bytes>, b: seq<Bytes>)
    ensures head + a == head + b <==> a == b
    ensures a <= b ==> head + a <= head + b
  {
    if head + a == head + b {
      assert (head + a)[|head|..] == a && (head + b)[|head|..] == b;
    }
  }

  lemma {:induction false} OneLine(s: Bytes)
    requires FirstDelim(s) == |s| < MAX_TOKEN
    ensures NoLongLine(s) && !Lines(s).tooLong && NonEmpty(Lines(s).tokens) == SplitOutput(s)
  {
    if s != [] {
      assert s[..|s|] == s && s[|s|..] == [];
      assert NonEmpty([s]) == [s] + NonEmpty([]);
    }
  }

  lemma {:induction false} LinesStep(s: Bytes, i: nat)
    requires i == FirstDelim(s) < |s| && i < MAX_TOKEN
    ensures
      var head, tail := if i == 0 then [] else [s[..i]], Lines(s[i + 1..]);
      Lines(s).tooLong == tail.tooLong && NonEmpty(Lines(s).tokens) == head + NonEmpty(tail.tokens)
  {
    NonEmptyConcat([s[..i]], Lines(s[i + 1..]).tokens);
    assert NonEmpty([s[..i]]) == if i == 0 then [] else [s[..i]];
  }

  lemma {:induction false} FieldsStep(s: Bytes, i: nat)
    requires i == FirstDelim(s) < |s|
    ensures SplitOutput(s) == (if i == 0 then [] else [s[..i]]) + SplitOutput(s[i + 1..])
  {
    if i > 0 {
      assert s[i..][0] == s[i] && s[i..][1..] == s[i + 1..];
      assert SplitOutput(s[i..]) == SplitOutput(s[i + 1..]);
    }
  }

  function Flatten(tokens: seq<Bytes>): Bytes {
    if tokens == [] then [] else tokens[0] + Flatten(tokens[1..])
  }

  function WithoutDelims(s: Bytes): Bytes {
    if s == [] then [] else (if s[0] == 10 || s[0] == 13 then [] else [s[0]]) + WithoutDelims(s[1..])
  }

  lemma {:induction false} WithoutDelimsPrefix(s: Bytes, i: nat)
    requires i <= |s| && forall k | 0 <= k < i :: !IsDelim(s[k])
    ensures WithoutDelims(s) == s[..i] + WithoutDelims(s[i..])
  {
    if i == 0 {
      assert s[0..] == s;
    } else {
      assert s[1..][..i - 1] == s[..i][1..];
      WithoutDelimsPrefix(s[1..], i - 1);
      assert s[1..][i - 1..] == s[i..];
      assert s[..i] == [s[0]] + s[1..][..i - 1];
    }
  }

  /** splitOutput loses and invents nothing: its fields are non-empty, hold no line feed and no
    * carriage return, and together spell the input with both removed. */
  lemma {:induction false} FieldsConserve(s: Bytes)
    ensures forall t | t in SplitOutput(s) :: t != [] && forall b: byte | b in t :: b != 10 && b != 13
    ensures Flatten(SplitOutput(s)) == WithoutDelims(s)
    decreases |s|
  {
    if s == [] {
    } else if IsDelim(s[0]) {
      FieldsConserve(s[1..]);
    } else {
      var i := FirstDelim(s);
      FieldsConserve(s[i..]);
      WithoutDelimsPrefix(s, i);
      assert SplitOutput(s)[1..] == SplitOutput(s[i..]);
    }
  }
}
