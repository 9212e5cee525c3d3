/** Content checked against its SHA-256 identity while it streams. The hash is a parameter: nothing
    here depends on which function it is. */
module ContentVerify {
  import opened Options

  type Byte = n: int | 0 <= n < 256

  const SIZE := 32

  // ---- The expected digest ----

  function HexValue(c: char): Option<int> {
    if '0' <= c <= '9' then Some(c as int - '0' as int)
    else if 'a' <= c <= 'f' then Some(c as int - 'a' as int + 10)
    else if 'A' <= c <= 'F' then Some(c as int - 'A' as int + 10)
    else None
  }

  function HexDecode(s: string): (r: Option<seq<Byte>>)
    ensures r.Some? ==> |s| == 2 * |r.value|
  {
    if s == "" then Some([])
    else if |s| == 1 || HexValue(s[0]).None? || HexValue(s[1]).None? then None
    else
      var rest := HexDecode(s[2..]);
      if rest.None? then None else Some([HexValue(s[0]).value * 16 + HexValue(s[1]).value] + rest.value)
  }

  function ParseExpected(expected: string): Option<seq<Byte>> {
    var decoded := HexDecode(expected);
    if decoded.None? || |decoded.value| != SIZE then None else decoded
  }

  lemma {:induction false} DecodesExactlyHex(s: string)
    ensures HexDecode(s).Some? <==> |s| % 2 == 0 && forall i | 0 <= i < |s| :: HexValue(s[i]).Some?
  {
    if |s| >= 2 {
      DecodesExactlyHex(s[2..]);
      if forall i | 0 <= i < |s| :: HexValue(s[i]).Some? {
        assert forall i | 0 <= i < |s[2..]| :: s[2..][i] == s[i + 2];
      } else if HexValue(s[0]).Some? && HexValue(s[1]).Some? {
        var i :| 0 <= i < |s| && HexValue(s[i]).None?;
        assert s[2..][i - 2] == s[i];
      }
    }
  }

  function LowerHex(c: char): char {
    if 'A' <= c <= 'F' then c - 'A' + 'a' else c
  }

  /** The case of the digest's letters does not matter. */
  lemma {:induction false} CaseDoesNotMatter(s: string, t: string)
    requires |s| == |t| && forall i | 0 <= i < |s| :: LowerHex(s[i]) == LowerHex(t[i])
    ensures HexDecode(s) == HexDecode(t)
  {
    if |s| >= 2 {
      assert HexValue(s[0]) == HexValue(LowerHex(s[0])) == HexValue(t[0]);
      assert HexValue(s[1]) == HexValue(LowerHex(s[1])) == HexValue(t[1]);
      CaseDoesNotMatter(s[2..], t[2..]);
    }
  }

  /** An expected digest parses exactly when it is 64 hexadecimal digits. */
  lemma ParsesExactly64Digits(expected: string)
    ensures ParseExpected(expected).Some? <==> |expected| == 64 && forall i | 0 <= i < 64 :: HexValue(expected[i]).Some?
  {
    DecodesExactlyHex(expected);
  }

  // ---- Whole content ----

  datatype Error = Invalid | Mismatch | EndOfFile | Incomplete | Failed(message: string)

  /** No error, or several joined. */
  type Errors = seq<Error>

  function VerifyBytes(sha: seq<Byte> -> seq<Byte>, data: seq<Byte>, expected: string): Errors {
    var want := ParseExpected(expected);
    if want.None? then [Invalid] else Compare(sha(data), want.value)
  }

  function Compare(got: seq<Byte>, want: seq<Byte>): Errors {
    if got == want then [] else [Mismatch]
  }

  // ---- Streaming ----

  /** What the source answers to one read. */
  datatype Status = More | End | Broken(message: string)

  datatype Call = Read(chunk: seq<Byte>, status: Status) | Close(sourceError: Option<string>)

  /** readCloser; `hashed` is what its digest has been fed. */
  datatype Reader = Reader(want: seq<Byte>, hashed: seq<Byte>, terminal: Option<Error>, verified: bool, closed: bool)

  /** What a call returned. */
  datatype Result = DidRead(bytes: seq<Byte>, error: Option<Error>) | DidClose(errors: Errors)

  function Opened(want: seq<Byte>): Reader {
    Reader(want, [], None, false, false)
  }

  function SourceErrors(e: Option<string>): Errors {
    if e.Some? then [Failed(e.value)] else []
  }

  /** The reader after a call. Once it has a terminal result the source is not read again. */
  function After(sha: seq<Byte> -> seq<Byte>, r: Reader, c: Call): Reader {
    match c
    case Close(_) => r.(closed := true)
    case Read(chunk, status) =>
      if r.terminal.Some? then r
      else
        var fed := r.(hashed := r.hashed + chunk);
        match status
        case More => fed
        case Broken(message) => fed.(terminal := Some(Failed(message)))
        case End => if sha(fed.hashed) == r.want then fed.(terminal := Some(EndOfFile), verified := true) else fed.(terminal := Some(Mismatch))
  }

  function Returns(sha: seq<Byte> -> seq<Byte>, r: Reader, c: Call): Result {
    match c
    case Read(chunk, _) => if r.terminal.Some? then DidRead([], r.terminal) else DidRead(chunk, After(sha, r, c).terminal)
    case Close(sourceError) =>
      var source := if r.closed then [] else SourceErrors(sourceError);
      if r.verified then DidClose(source)
      else if r.terminal.Some? && r.terminal.value != EndOfFile then DidClose([r.terminal.value] + source)
      else DidClose([Incomplete] + source)
  }

  // ---- Any order of calls ----

  function AfterAll(sha: seq<Byte> -> seq<Byte>, r: Reader, calls: seq<Call>): Reader {
    if calls == [] then r else After(sha, AfterAll(sha, r, calls[..|calls| - 1]), calls[|calls| - 1])
  }

  /** The result of call k. */
  function ResultAt(sha: seq<Byte> -> seq<Byte>, r: Reader, calls: seq<Call>, k: nat): Result
    requires k < |calls|
  {
    Returns(sha, AfterAll(sha, r, calls[..k]), calls[k])
  }

  /** The bytes the caller has been given. */
  function Delivered(sha: seq<Byte> -> seq<Byte>, r: Reader, calls: seq<Call>): seq<Byte> {
    if calls == [] then []
    else
      var before := calls[..|calls| - 1];
      var result := Returns(sha, AfterAll(sha, r, before), calls[|calls| - 1]);
      Delivered(sha, r, before) + (if result.DidRead? then result.bytes else [])
  }

  ghost predicate ReaderOk(sha: seq<Byte> -> seq<Byte>, r: Reader) {
    && (r.verified <==> r.terminal == Some(EndOfFile))
    && (r.verified ==> sha(r.hashed) == r.want)
    && (r.terminal == Some(Mismatch) ==> sha(r.hashed) != r.want)
    && (r.terminal.Some? ==> r.terminal.value in {EndOfFile, Mismatch} || r.terminal.value.Failed?)
  }

  /** The digest has been fed what the caller was given, and the reader's verdict is about that. */
  lemma {:induction false} StreamOk(sha: seq<Byte> -> seq<Byte>, want: seq<Byte>, calls: seq<Call>)
    ensures var r := AfterAll(sha, Opened(want), calls);
      r.want == want && r.hashed == Delivered(sha, Opened(want), calls) && ReaderOk(sha, r)
    decreases |calls|
  {
    if calls != [] {
      StreamOk(sha, want, calls[..|calls| - 1]);
    }
  }

  /** Main result: whatever the chunks and the calls before, when the source ends, the read that meets
      its end - the first to have a terminal result - reports the end exactly when the whole-content
      check accepts the bytes delivered, and a mismatch otherwise. */
  lemma EndIffWholeVerifies(sha: seq<Byte> -> seq<Byte>, expected: string, calls: seq<Call>, chunk: seq<Byte>)
    requires ParseExpected(expected).Some?
    requires AfterAll(sha, Opened(ParseExpected(expected).value), calls).terminal.None?
    ensures var r := Opened(ParseExpected(expected).value);
      var all := calls + [Read(chunk, End)];
      ResultAt(sha, r, all, |calls|) ==
        DidRead(chunk, if VerifyBytes(sha, Delivered(sha, r, all), expected) == [] then Some(EndOfFile) else Some(Mismatch))
  {
    var r := Opened(ParseExpected(expected).value);
    var all := calls + [Read(chunk, End)];
    assert all[..|calls|] == calls && all[|calls|] == Read(chunk, End);
    StreamOk(sha, ParseExpected(expected).value, calls);
  }

  /** No read ever reports the end of bytes the whole-content check refuses. */
  lemma EndMeansVerified(sha: seq<Byte> -> seq<Byte>, expected: string, calls: seq<Call>)
    requires ParseExpected(expected).Some? && calls != [] && calls[|calls| - 1].Read?
    requires var result := ResultAt(sha, Opened(ParseExpected(expected).value), calls, |calls| - 1);
      result.DidRead? && result.error == Some(EndOfFile)
    ensures VerifyBytes(sha, Delivered(sha, Opened(ParseExpected(expected).value), calls), expected) == []
  {
    StreamOk(sha, ParseExpected(expected).value, calls);
    StreamOk(sha, ParseExpected(expected).value, calls[..|calls| - 1]);
  }

  lemma {:induction false} TerminalStays(sha: seq<Byte> -> seq<Byte>, r: Reader, calls: seq<Call>, k: nat)
    requires k <= |calls| && AfterAll(sha, r, calls[..k]).terminal.Some?
    ensures AfterAll(sha, r, calls).terminal == AfterAll(sha, r, calls[..k]).terminal
    ensures AfterAll(sha, r, calls).verified == AfterAll(sha, r, calls[..k]).verified
    decreases |calls|
  {
    if k < |calls| {
      assert calls[..|calls| - 1][..k] == calls[..k];
      TerminalStays(sha, r, calls[..|calls| - 1], k);
    } else {
      assert calls[..k] == calls;
    }
  }

  /** A terminal result is stable: every later read returns it again, with no bytes. */
  lemma TerminalIsStable(sha: seq<Byte> -> seq<Byte>, r: Reader, calls: seq<Call>, k: nat, j: nat)
    requires k < j < |calls| && calls[k].Read? && calls[j].Read? && calls[k].status != More
    requires AfterAll(sha, r, calls[..k]).terminal.None?
    ensures ResultAt(sha, r, calls, j) == DidRead([], ResultAt(sha, r, calls, k).error)
  {
    assert calls[..k + 1][..k] == calls[..k];
    assert calls[..j][..k + 1] == calls[..k + 1];
    TerminalStays(sha, r, calls[..j], k + 1);
  }

  predicate ClosedBefore(calls: seq<Call>) {
    exists j | 0 <= j < |calls| :: calls[j].Close?
  }

  lemma {:induction false} ClosedIffClosedBefore(sha: seq<Byte> -> seq<Byte>, want: seq<Byte>, calls: seq<Call>)
    ensures AfterAll(sha, Opened(want), calls).closed <==> ClosedBefore(calls)
    decreases |calls|
  {
    if calls != [] {
      var before := calls[..|calls| - 1];
      ClosedIffClosedBefore(sha, want, before);
      if ClosedBefore(before) {
        var j :| 0 <= j < |before| && before[j].Close?;
        assert calls[j].Close?;
      } else {
        assert forall j | 0 <= j < |before| :: before[j] == calls[j];
      }
    }
  }

  /** Main result: a close succeeds exactly after a read that reported the end, when the source closes
      without an error or has been closed before; and then the bytes delivered are the right ones. */
  lemma CloseExactly(sha: seq<Byte> -> seq<Byte>, expected: string, calls: seq<Call>, k: nat)
    requires ParseExpected(expected).Some? && k < |calls| && calls[k].Close?
    ensures var r := Opened(ParseExpected(expected).value);
      ResultAt(sha, r, calls, k) == DidClose([]) <==>
        (exists j | 0 <= j < k :: EndedAt(sha, r, calls, j)) && (ClosedBefore(calls[..k]) || calls[k].sourceError.None?)
    ensures var r := Opened(ParseExpected(expected).value);
      ResultAt(sha, r, calls, k) == DidClose([]) ==> VerifyBytes(sha, Delivered(sha, r, calls[..k]), expected) == []
  {
    var want := ParseExpected(expected).value;
    var r := Opened(want);
    StreamOk(sha, want, calls[..k]);
    ClosedIffClosedBefore(sha, want, calls[..k]);
    if AfterAll(sha, r, calls[..k]).verified {
      EndWasReported(sha, want, calls[..k]);
      var j :| 0 <= j < k && EndedAt(sha, r, calls[..k], j);
      assert calls[..k][..j] == calls[..j];
      assert EndedAt(sha, r, calls, j);
    }
    if exists j | 0 <= j < k :: EndedAt(sha, r, calls, j) {
      var j :| 0 <= j < k && EndedAt(sha, r, calls, j);
      EndedStaysVerified(sha, want, calls, j, k);
    }
  }

  lemma EndedStaysVerified(sha: seq<Byte> -> seq<Byte>, want: seq<Byte>, calls: seq<Call>, j: nat, k: nat)
    requires j < k <= |calls| && EndedAt(sha, Opened(want), calls, j)
    ensures AfterAll(sha, Opened(want), calls[..k]).verified
  {
    var r := Opened(want);
    assert calls[..j + 1][..j] == calls[..j];
    StreamOk(sha, want, calls[..j]);
    StreamOk(sha, want, calls[..j + 1]);
    assert calls[..k][..j + 1] == calls[..j + 1];
    TerminalStays(sha, r, calls[..k], j + 1);
  }

  /** Call j is a read that reported the end. */
  predicate EndedAt(sha: seq<Byte> -> seq<Byte>, r: Reader, calls: seq<Call>, j: nat)
    requires j < |calls|
  {
    var result := ResultAt(sha, r, calls, j);
    result.DidRead? && result.error == Some(EndOfFile)
  }

  lemma {:induction false} EndWasReported(sha: seq<Byte> -> seq<Byte>, want: seq<Byte>, calls: seq<Call>)
    requires AfterAll(sha, Opened(want), calls).verified
    ensures exists j | 0 <= j < |calls| :: EndedAt(sha, Opened(want), calls, j)
    decreases |calls|
  {
    var r, before := Opened(want), calls[..|calls| - 1];
    StreamOk(sha, want, before);
    if AfterAll(sha, r, before).verified {
      EndWasReported(sha, want, before);
      var j :| 0 <= j < |before| && EndedAt(sha, r, before, j);
      assert before[..j] == calls[..j];
      assert EndedAt(sha, r, calls, j);
    } else {
      assert EndedAt(sha, r, calls, |calls| - 1);
    }
  }

  // ---- The reader object ----

  class ReadCloser {
    const sha: seq<Byte> -> seq<Byte>
    const want: seq<Byte>
    var digest: seq<Byte>
    var terminal: Option<Error>
    var verified: bool
    var closed: bool

    ghost function View(): Reader
      reads this
    {
      Reader(want, digest, terminal, verified, closed)
    }

    constructor (sha: seq<Byte> -> seq<Byte>, want: seq<Byte>)
      ensures View() == Opened(want) && this.sha == sha
    {
      this.sha, this.want, digest, terminal, verified, closed := sha, want, [], None, false, false;
    }

    /** One read; the source's answer is what it would give if it is asked. */
    method ReadNext(chunk: seq<Byte>, status: Status) returns (bytes: seq<Byte>, error: Option<Error>)
      modifies this
      ensures View() == After(sha, old(View()), Read(chunk, status))
      ensures DidRead(bytes, error) == Returns(sha, old(View()), Read(chunk, status))
    {
      if terminal.Some? {
        return [], terminal;
      }
      digest := digest + chunk;
      match status
      case End =>
        if sha(digest) != want {
          terminal := Some(Mismatch);
          return chunk, terminal;
        }
        verified, terminal := true, Some(EndOfFile);
        return chunk, terminal;
      case Broken(message) =>
        terminal := Some(Failed(message));
        return chunk, terminal;
      case More => return chunk, None;
    }

    method CloseNow(sourceError: Option<string>) returns (errors: Errors)
      modifies this`closed
      ensures View() == After(sha, old(View()), Close(sourceError))
      ensures DidClose(errors) == Returns(sha, old(View()), Close(sourceError))
    {
      if !closed {
        closed := true;
        var source := SourceErrors(sourceError);
        if verified {
          return source;
        }
        if terminal.Some? && terminal.value != EndOfFile {
          return [terminal.value] + source;
        }
        return [Incomplete] + source;
      }
      if verified {
        return [];
      }
      if terminal.Some? && terminal.value != EndOfFile {
        return [terminal.value];
      }
      return [Incomplete];
    }
  }

  /** NewReadCloser. */
  method Open(sha: seq<Byte> -> seq<Byte>, expected: string) returns (r: ReadCloser?)
    ensures r == null <==> ParseExpected(expected).None?
    ensures r != null ==> fresh(r) && r.sha == sha && r.View() == Opened(ParseExpected(expected).value)
  {
    var want := ParseExpected(expected);
    if want.None? {
      return null;
    }
    r := new ReadCloser(sha, want.value);
  }
}
