/**
 * The wire layout of a workflow status, as functions: what write emits for a
 * given iteration order of the four job sets, and what readFields accepts.
 * The methods of WorkflowStatus are proved against these functions; the
 * round-trip lemmas below are about the functions alone.
 */
module StatusCodec {
  import opened DataIO

  /** Collection.size(): the element count, saturated at Integer.MAX_VALUE. */
  function SizeAsInt(n: nat): (c: Int32)
    ensures 0 <= c <= n
    ensures c == n <==> n <= INT_MAX
    ensures n > INT_MAX ==> c == INT_MAX
  {
    if n <= INT_MAX then n else INT_MAX
  }

  function Elements(xs: seq<string>): set<string>
  {
    set x | x in xs
  }

  predicate NoDuplicates(xs: seq<string>)
  {
    forall i, j :: 0 <= i < j < |xs| ==> xs[i] != xs[j]
  }

  /**
   * xs is an order in which the set s can be iterated: every element once.
   * HashSet leaves the order unspecified, so write is described for every
   * such order.
   */
  predicate IsEnumeration(xs: seq<string>, s: set<string>)
  {
    NoDuplicates(xs) && Elements(xs) == s
  }

  /** An enumeration has as many entries as the set has elements. */
  lemma {:induction false} EnumerationSize(xs: seq<string>, s: set<string>)
    requires IsEnumeration(xs, s)
    ensures |xs| == |s|
  {
    if xs != [] {
      var tail := xs[1..];
      assert NoDuplicates(tail) by {
        forall i, j | 0 <= i < j < |tail| ensures tail[i] != tail[j] {
          assert tail[i] == xs[i + 1] && tail[j] == xs[j + 1];
        }
      }
      assert xs[0] !in tail by {
        forall i | 0 <= i < |tail| ensures tail[i] != xs[0] {
          assert tail[i] == xs[i + 1];
        }
      }
      assert Elements(tail) == s - {xs[0]} by {
        assert xs == [xs[0]] + tail;
      }
      EnumerationSize(tail, s - {xs[0]});
    }
  }

  /** The strings xs, one Text.writeString each. */
  function Texts(xs: seq<string>): (ts: seq<Token>)
    ensures |ts| == |xs|
    ensures forall i :: 0 <= i < |xs| ==> ts[i] == Text(xs[i])
  {
    seq(|xs|, i requires 0 <= i < |xs| => Text(xs[i]))
  }

  /** What writeJobSet emits when the set is iterated in the order xs. */
  function JobSetLayout(xs: seq<string>): seq<Token>
  {
    WriteInt(SizeAsInt(|xs|)) + Texts(xs)
  }

  /** What write emits, for the given iteration orders of the four sets. */
  function StatusLayout(id: WorkflowId, failureInfo: string, submissionTime: Int64,
                        prep: seq<string>, submitted: seq<string>,
                        running: seq<string>, finished: seq<string>): seq<Token>
  {
    WriteId(id) + WriteString(failureInfo) + WriteLong(submissionTime)
      + JobSetLayout(prep) + JobSetLayout(submitted)
      + JobSetLayout(running) + JobSetLayout(finished)
  }

  /** The number of strings readJobSet's loop reads for a count: none unless positive. */
  function LoopCount(count: int): nat
  {
    if count > 0 then count else 0
  }

  /**
   * The strings of the longest run of at most n string tokens at the head of
   * the input: what readJobSet's loop has added when it stops, either after n
   * strings or at the first readString that fails.
   */
  function TextsAhead(input: seq<Token>, n: nat): (xs: seq<string>)
    ensures |xs| <= n && |xs| <= |input|
  {
    if n == 0 then []
    else match ReadString(input)
      case None => []
      case Some((s, rest)) => [s] + TextsAhead(rest, n - 1)
  }

  /** n names, or None if the input runs out of string tokens first. */
  function NamesAhead(input: seq<Token>, n: nat): Option<(seq<string>, seq<Token>)>
  {
    if n == 0 then Some(([], input))
    else match ReadString(input)
      case None => None
      case Some((s, rest)) =>
        match NamesAhead(rest, n - 1)
        case None => None
        case Some((xs, rest)) => Some(([s] + xs, rest))
  }

  /**
   * The run really is the longest: each of its strings is the token at its
   * position, and unless it has n strings, the token after it is not a string.
   */
  lemma {:induction false} TextsAheadIsLongestRun(input: seq<Token>, n: nat)
    ensures var xs := TextsAhead(input, n);
            && (forall i :: 0 <= i < |xs| ==> input[i] == Text(xs[i]))
            && (|xs| < n ==> |xs| == |input| || !input[|xs|].Text?)
  {
    if n > 0 && ReadString(input).Some? {
      TextsAheadIsLongestRun(input[1..], n - 1);
      var xs := TextsAhead(input, n);
      forall i | 0 <= i < |xs| ensures input[i] == Text(xs[i]) {
        if i > 0 {
          assert input[i] == input[1..][i - 1];
        }
      }
    }
  }

  /** readJobSet as a whole: the names it reads, or None on a decode error. */
  function JobSetAhead(input: seq<Token>): Option<(set<string>, seq<Token>)>
  {
    match ReadInt(input)
    case None => None
    case Some((count, rest)) =>
      match NamesAhead(rest, LoopCount(count))
      case None => None
      case Some((xs, rest)) => Some((Elements(xs), rest))
  }

  /**
   * The names readJobSet has added when it stops on a decode error: none if
   * the count cannot be read, else those of the run of strings before the
   * failing read.
   */
  function NamesBeforeError(input: seq<Token>): set<string>
  {
    match ReadInt(input)
    case None => {}
    case Some((count, rest)) => Elements(TextsAhead(rest, LoopCount(count)))
  }

  /** The complete read succeeds exactly when the longest run of strings is n long. */
  lemma {:induction false} NamesAheadOfTextsAhead(input: seq<Token>, n: nat)
    ensures var xs := TextsAhead(input, n);
            NamesAhead(input, n) == if |xs| == n then Some((xs, input[n..])) else None
  {
    if n > 0 && ReadString(input).Some? {
      NamesAheadOfTextsAhead(input[1..], n - 1);
      if |TextsAhead(input, n)| == n {
        assert input[1..][n - 1..] == input[n..];
      }
    }
  }

  /** Adding one more name to the run adds it to the set. */
  lemma ElementsAppend(xs: seq<string>, x: string)
    ensures Elements(xs + [x]) == Elements(xs) + {x}
  {
  }

  /**
   * One step of readJobSet's loop: when the names read so far followed by the
   * run ahead make up the whole run, reading one more string keeps it so.
   */
  lemma TextsAheadStep(whole: seq<string>, read: seq<string>, input: seq<Token>, n: nat)
    requires n > 0 && ReadString(input).Some?
    requires read + TextsAhead(input, n) == whole
    ensures (read + [ReadString(input).value.0]) + TextsAhead(input[1..], n - 1) == whole
  {
    var s := ReadString(input).value.0;
    assert TextsAhead(input, n) == [s] + TextsAhead(input[1..], n - 1);
    assert read + [s] + TextsAhead(input[1..], n - 1) == read + ([s] + TextsAhead(input[1..], n - 1));
  }

  /**
   * readJobSet is all-or-nothing exactly when its loop reads the full count:
   * it succeeds with the names of the run of strings when the run is as long
   * as the count, and fails otherwise, having added the names of the run.
   */
  lemma JobSetAheadOfTextsAhead(input: seq<Token>)
    requires ReadInt(input).Some?
    ensures var (count, after) := ReadInt(input).value;
            var xs := TextsAhead(after, LoopCount(count));
            && JobSetAhead(input) == (if |xs| == LoopCount(count) then Some((Elements(xs), after[|xs|..])) else None)
            && NamesBeforeError(input) == Elements(xs)
  {
    var (count, after) := ReadInt(input).value;
    NamesAheadOfTextsAhead(after, LoopCount(count));
  }

  /** The fields readFields decodes. The run state is not on the wire. */
  datatype Fields = Fields(id: WorkflowId, failureInfo: string, submissionTime: Int64,
                           prep: set<string>, submitted: set<string>,
                           running: set<string>, finished: set<string>)

  /** The four sets, read one after the other in the order prep, submitted, running, finished. */
  function JobSetsAhead(input: seq<Token>): Option<((set<string>, set<string>, set<string>, set<string>), seq<Token>)>
  {
    match JobSetAhead(input)
    case None => None
    case Some((prep, input)) =>
      match JobSetAhead(input)
      case None => None
      case Some((submitted, input)) =>
        match JobSetAhead(input)
        case None => None
        case Some((running, input)) =>
          match JobSetAhead(input)
          case None => None
          case Some((finished, input)) => Some(((prep, submitted, running, finished), input))
  }

  /**
   * The names the four readJobSet calls add to prep, submitted, running and
   * finished, whether or not they all succeed: a set before the failing read
   * gains all its decoded names, the failing one the names before the error,
   * and the sets after it nothing.
   */
  function JobSetsAdded(input: seq<Token>): (set<string>, set<string>, set<string>, set<string>)
  {
    match JobSetAhead(input)
    case None => (NamesBeforeError(input), {}, {}, {})
    case Some((prep, input)) =>
      match JobSetAhead(input)
      case None => (prep, NamesBeforeError(input), {}, {})
      case Some((submitted, input)) =>
        match JobSetAhead(input)
        case None => (prep, submitted, NamesBeforeError(input), {})
        case Some((running, input)) =>
          match JobSetAhead(input)
          case None => (prep, submitted, running, NamesBeforeError(input))
          case Some((finished, _)) => (prep, submitted, running, finished)
  }

  /** The identifier, the failure info and the submission time, read in that order. */
  function HeaderAhead(input: seq<Token>): Option<((WorkflowId, string, Int64), seq<Token>)>
  {
    match ReadId(input)
    case None => None
    case Some((id, input)) =>
      match ReadString(input)
      case None => None
      case Some((failureInfo, input)) =>
        match ReadLong(input)
        case None => None
        case Some((submissionTime, input)) => Some(((id, failureInfo, submissionTime), input))
  }

  /** readFields as a whole: the decoded fields, or None on a decode error. */
  function FieldsAhead(input: seq<Token>): Option<(Fields, seq<Token>)>
  {
    match HeaderAhead(input)
    case None => None
    case Some((header, input)) =>
      match JobSetsAhead(input)
      case None => None
      case Some((sets, input)) =>
        Some((Fields(header.0, header.1, header.2, sets.0, sets.1, sets.2, sets.3), input))
  }

  /** Reading back a run of written strings gives the strings, in order, and what follows. */
  lemma {:induction false} NamesAheadOfTexts(xs: seq<string>, rest: seq<Token>)
    ensures NamesAhead(Texts(xs) + rest, |xs|) == Some((xs, rest))
  {
    if xs != [] {
      var input := Texts(xs) + rest;
      assert input[1..] == Texts(xs[1..]) + rest;
      assert ReadString(input) == Some((xs[0], input[1..]));
      NamesAheadOfTexts(xs[1..], rest);
      assert xs == [xs[0]] + xs[1..];
    } else {
      assert Texts(xs) + rest == rest;
    }
  }

  /** readJobSet recovers the set that writeJobSet wrote, whatever the iteration order. */
  lemma JobSetRoundTrip(xs: seq<string>, rest: seq<Token>)
    requires |xs| <= INT_MAX
    ensures JobSetAhead(JobSetLayout(xs) + rest) == Some((Elements(xs), rest))
  {
    var body := Texts(xs) + rest;
    assert JobSetLayout(xs) + rest == WriteInt(|xs|) + body;
    ReadIntOfWriteInt(|xs|, body);
    NamesAheadOfTexts(xs, rest);
  }

  /** A count of zero or less reads no names and consumes only the count. */
  lemma NonPositiveCountReadsNothing(count: Int32, rest: seq<Token>)
    requires count <= 0
    ensures JobSetAhead(WriteInt(count) + rest) == Some(({}, rest))
  {
    ReadIntOfWriteInt(count, rest);
    assert NamesAhead(rest, 0) == Some(([], rest));
    assert Elements([]) == {};
  }

  /** A name repeated on the wire is read into the set once. */
  lemma RepeatedNameCollapses(name: string, rest: seq<Token>)
    ensures JobSetAhead(WriteInt(2) + [Text(name), Text(name)] + rest) == Some(({name}, rest))
  {
    var body := [Text(name), Text(name)] + rest;
    assert WriteInt(2) + [Text(name), Text(name)] + rest == WriteInt(2) + body;
    ReadIntOfWriteInt(2, body);
    assert NamesAhead(body, 2) == Some(([name, name], rest)) by {
      assert body[1..] == [Text(name)] + rest;
      assert body[1..][1..] == rest;
      assert NamesAhead(body[1..], 1) == Some(([name] + [], rest));
      assert [name] + ([name] + []) == [name, name];
    }
    assert Elements([name, name]) == {name};
  }

  /** The four sets, written one after the other, are read back one after the other. */
  lemma JobSetsRoundTrip(prep: seq<string>, submitted: seq<string>,
                         running: seq<string>, finished: seq<string>, rest: seq<Token>)
    requires |prep| <= INT_MAX && |submitted| <= INT_MAX
    requires |running| <= INT_MAX && |finished| <= INT_MAX
    ensures JobSetsAhead(JobSetLayout(prep) + JobSetLayout(submitted)
                           + JobSetLayout(running) + JobSetLayout(finished) + rest)
            == Some(((Elements(prep), Elements(submitted), Elements(running), Elements(finished)), rest))
  {
    var afterRunning := JobSetLayout(finished) + rest;
    var afterSubmitted := JobSetLayout(running) + afterRunning;
    var afterPrep := JobSetLayout(submitted) + afterSubmitted;
    assert JobSetLayout(prep) + JobSetLayout(submitted) + JobSetLayout(running)
             + JobSetLayout(finished) + rest == JobSetLayout(prep) + afterPrep;
    JobSetRoundTrip(prep, afterPrep);
    JobSetRoundTrip(submitted, afterSubmitted);
    JobSetRoundTrip(running, afterRunning);
    JobSetRoundTrip(finished, rest);
  }

  /** The identifier, failure info and submission time are read back as written. */
  lemma HeaderRoundTrip(id: WorkflowId, failureInfo: string, submissionTime: Int64, rest: seq<Token>)
    ensures HeaderAhead(WriteId(id) + WriteString(failureInfo) + WriteLong(submissionTime) + rest)
            == Some(((id, failureInfo, submissionTime), rest))
  {
    var afterInfo := WriteLong(submissionTime) + rest;
    var afterId := WriteString(failureInfo) + afterInfo;
    assert WriteId(id) + WriteString(failureInfo) + WriteLong(submissionTime) + rest
        == WriteId(id) + afterId;
    assert afterId[1..] == afterInfo;
    ReadLongOfWriteLong(submissionTime, rest);
  }

  /**
   * Round trip of the whole status: readFields, applied to what write emits,
   * recovers the identifier, the failure info, the submission time and the
   * four sets, and leaves the input that followed.
   */
  lemma StatusRoundTrip(id: WorkflowId, failureInfo: string, submissionTime: Int64,
                        prep: seq<string>, submitted: seq<string>,
                        running: seq<string>, finished: seq<string>, rest: seq<Token>)
    requires |prep| <= INT_MAX && |submitted| <= INT_MAX
    requires |running| <= INT_MAX && |finished| <= INT_MAX
    ensures FieldsAhead(StatusLayout(id, failureInfo, submissionTime,
                                     prep, submitted, running, finished) + rest)
            == Some((Fields(id, failureInfo, submissionTime, Elements(prep), Elements(submitted),
                            Elements(running), Elements(finished)), rest))
  {
    var afterHeader := JobSetLayout(prep) + JobSetLayout(submitted)
                         + JobSetLayout(running) + JobSetLayout(finished) + rest;
    assert StatusLayout(id, failureInfo, submissionTime, prep, submitted, running, finished) + rest
        == WriteId(id) + WriteString(failureInfo) + WriteLong(submissionTime) + afterHeader;
    HeaderRoundTrip(id, failureInfo, submissionTime, afterHeader);
    JobSetsRoundTrip(prep, submitted, running, finished, rest);
  }
}
