/**
 * The streaming path of the chat mock (test/mock_llm_server.ts,
 * createStreamingResponse, `start()`): the reply becomes an ordered schedule
 * of server-sent-event frames, each paired with the millisecond offset, from
 * stream start, of the timer that enqueues it.
 */
module LlmStream {
  import opened Wrappers
  import opened Text

  const WordInterval := 50
  const FinishDelay := 100

  /** The `delta` object of a chunk. */
  datatype Delta = RoleDelta(role: string) | ContentDelta(content: string) | EmptyDelta

  /** A `chat.completion.chunk` event, or the final `data: [DONE]` sentinel. */
  datatype Frame =
    | Chunk(id: string, model: string, delta: Delta, finishReason: Option<string>)
    | Done

  /** A frame with the offset (milliseconds after stream start) at which it is enqueued. */
  type Timed = (nat, Frame)

  function RoleFrame(id: string, model: string): Frame {
    Chunk(id, model, RoleDelta("assistant"), None)
  }

  function WordFrame(id: string, model: string, word: string): Frame {
    Chunk(id, model, ContentDelta(word + " "), None)
  }

  function StopFrame(id: string, model: string): Frame {
    Chunk(id, model, EmptyDelta, Some("stop"))
  }

  /** The timers the `for (const word of words)` loop sets: word `i` at `50 * i`. */
  function WordFrames(id: string, model: string, words: seq<string>): (r: seq<Timed>)
    ensures |r| == |words|
  {
    seq(|words|, i requires 0 <= i < |words| => (WordInterval * i, WordFrame(id, model, words[i])))
  }

  /**
   * The whole schedule over `reply.split(" ")` of W words: the role frame at 0,
   * W word frames, then the stop frame and `[DONE]` together at `50 * W + 100`.
   */
  function StreamSchedule(id: string, model: string, reply: string): (r: seq<Timed>)
    ensures var w := |Split(reply, ' ')|;
      && |r| == w + 3
      && r[0] == (0, RoleFrame(id, model))
      && (forall i :: 0 <= i < w ==> r[i + 1] == (WordInterval * i, WordFrame(id, model, Split(reply, ' ')[i])))
      && r[w + 1] == (WordInterval * w + FinishDelay, StopFrame(id, model))
      && r[w + 2] == (WordInterval * w + FinishDelay, Done)
  {
    var words := Split(reply, ' ');
    var w := |words|;
    var finish := WordInterval * w + FinishDelay;
    [(0, RoleFrame(id, model))] + WordFrames(id, model, words) + [(finish, StopFrame(id, model)), (finish, Done)]
  }

  /**
   * The timers fire in schedule order: offsets never decrease, and the words
   * and the stop frame are strictly spaced; only the stop frame and `[DONE]` share a time.
   */
  lemma ScheduleOrdered(id: string, model: string, reply: string)
    ensures var r := StreamSchedule(id, model, reply);
      && (forall i, j :: 0 <= i <= j < |r| ==> r[i].0 <= r[j].0)
      && (forall i, j :: 1 <= i < j < |r| - 1 ==> r[i].0 < r[j].0)
  {
  }

  /** `start()`: walk the words with a running `delay`, then schedule the finish `delay + 100` later. */
  method BuildSchedule(id: string, model: string, reply: string) returns (frames: seq<Timed>)
    ensures frames == StreamSchedule(id, model, reply)
  {
    frames := [(0, RoleFrame(id, model))];
    var words := Split(reply, ' ');
    var delay: nat := 0;
    for i := 0 to |words|
      invariant delay == WordInterval * i
      invariant frames == [(0, RoleFrame(id, model))] + WordFrames(id, model, words[..i])
    {
      assert WordFrames(id, model, words[..i + 1]) == WordFrames(id, model, words[..i]) + [(delay, WordFrame(id, model, words[i]))];
      frames := frames + [(delay, WordFrame(id, model, words[i]))];
      delay := delay + WordInterval;
    }
    assert words[..|words|] == words;
    frames := frames + [(delay + FinishDelay, StopFrame(id, model)), (delay + FinishDelay, Done)];
  }

  /** The text a client gets by concatenating the `content` of every delta, in schedule order. */
  function StreamedText(frames: seq<Timed>): string
    decreases |frames|
  {
    if frames == [] then "" else DeltaText(frames[0].1) + StreamedText(frames[1..])
  }

  function DeltaText(f: Frame): string {
    match f
    case Chunk(_, _, ContentDelta(c), _) => c
    case _ => ""
  }

  /** Each word followed by one space, as the word frames carry them. */
  function Spaced(words: seq<string>): string
    decreases |words|
  {
    if words == [] then "" else words[0] + " " + Spaced(words[1..])
  }

  lemma {:induction false} StreamedTextAppend(a: seq<Timed>, b: seq<Timed>)
    ensures StreamedText(a + b) == StreamedText(a) + StreamedText(b)
    decreases |a|
  {
    if a == [] {
      assert a + b == b;
    } else {
      assert (a + b)[0] == a[0] && (a + b)[1..] == a[1..] + b;
      StreamedTextAppend(a[1..], b);
    }
  }

  /** Frames that carry the words in order, whatever their offsets, spell the spaced words. */
  lemma {:induction false} WordFramesText(id: string, model: string, words: seq<string>, r: seq<Timed>)
    requires |r| == |words|
    requires forall i :: 0 <= i < |r| ==> r[i].1 == WordFrame(id, model, words[i])
    ensures StreamedText(r) == Spaced(words)
    decreases |words|
  {
    if words != [] {
      WordFramesText(id, model, words[1..], r[1..]);
    }
  }

  /** Spacing the words of a join is the join plus one trailing space. */
  lemma {:induction false} SpacedIsJoin(words: seq<string>)
    requires |words| >= 1
    ensures Spaced(words) == Join(words, ' ') + " "
    decreases |words|
  {
    if |words| > 1 {
      SpacedIsJoin(words[1..]);
    } else {
      assert words[1..] == [];
    }
  }

  /** The role and finish frames carry no text, so a schedule's text is its words, spaced. */
  lemma FramedWordsText(id: string, model: string, words: seq<string>, finish: nat)
    ensures StreamedText([(0, RoleFrame(id, model))] + WordFrames(id, model, words)
                         + [(finish, StopFrame(id, model)), (finish, Done)]) == Spaced(words)
  {
    var head: seq<Timed> := [(0, RoleFrame(id, model))];
    var body := WordFrames(id, model, words);
    var tail: seq<Timed> := [(finish, StopFrame(id, model)), (finish, Done)];
    StreamedTextAppend(head + body, tail);
    StreamedTextAppend(head, body);
    assert StreamedText(head) == "" by {
      assert head[1..] == [];
    }
    assert StreamedText(tail) == "" by {
      assert tail[1..][1..] == [];
    }
    WordFramesText(id, model, words, body);
  }

  /** Reassembly: the concatenated deltas of the stream are the reply plus one trailing space. */
  lemma StreamRoundTrip(id: string, model: string, reply: string)
    ensures StreamedText(StreamSchedule(id, model, reply)) == reply + " "
  {
    var words := Split(reply, ' ');
    var finish := WordInterval * |words| + FinishDelay;
    var r := StreamSchedule(id, model, reply);
    assert r == [(0, RoleFrame(id, model))] + WordFrames(id, model, words)
                + [(finish, StopFrame(id, model)), (finish, Done)];
    FramedWordsText(id, model, words, finish);
    assert StreamedText(r) == Spaced(words);
    SpacedIsJoin(words);
    JoinSplit(reply, ' ');
  }
}
