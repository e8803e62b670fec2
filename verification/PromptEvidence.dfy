/**
 The evidence of one prompt from end to end: what the reader queued for it, what its
 consumer yields (`_prompt_content`), and what the collector makes of that.
 */
module PromptEvidence {
  import opened Wrappers
  import opened ReaderModel
  import opened ReaderEpochs
  import opened ReaderFrames
  import opened Collector
  import opened DirectState

  /** How the request of the prompt ends: its future raises, or it has a result with or without a stop reason. */
  datatype Turn = TurnRaises | TurnEnds(stopReason: Option<string>)

  /** The content of the updates with these tags. */
  function Contents(entries: seq<Entry>, content: Entry -> Collector.Update): seq<Collector.Update> {
    seq(|entries|, i requires 0 <= i < |entries| => content(entries[i]))
  }

  /**
   What `_prompt_content` yields from the entries it has popped: each update until the marker or a
   wake-up, and then the stop reason of the turn, unless that raises.
   */
  function Yielded(popped: seq<Entry>, content: Entry -> Collector.Update, turn: Turn): seq<Item> {
    if popped == [] then []
    else if popped[0].Marker? || popped[0].Wake? then
      match turn
      case TurnRaises => []
      case TurnEnds(stopReason) => [Done(stopReason)]
    else [Progress(content(popped[0]))] + Yielded(popped[1..], content, turn)
  }

  function StopOf(turn: Turn): Option<StopReason> {
    if turn.TurnRaises? then None else KnownStop(turn.stopReason)
  }

  /** A whole epoch is yielded as its updates and then the stop reason. */
  lemma {:induction false} EpochYields(entries: seq<Entry>, content: Entry -> Collector.Update, turn: Turn)
    requires Marker !in entries && Wake !in entries
    ensures var stream := Yielded(entries + [Marker], content, turn);
      Updates(stream) == Contents(entries, content) && Stop(stream) == StopOf(turn)
  {
    hide KnownStop;
    if entries == [] {
      assert [] + [Marker] == [Marker];
    } else {
      assert entries[0] in entries;
      assert (entries + [Marker])[0] == entries[0] && (entries + [Marker])[1..] == entries[1..] + [Marker];
      EpochYields(entries[1..], content, turn);
      var rest := Yielded(entries[1..] + [Marker], content, turn);
      var stream := Yielded(entries + [Marker], content, turn);
      assert stream[0] == Progress(content(entries[0])) && stream[1..] == rest;
      assert Contents(entries, content) == [content(entries[0])] + Contents(entries[1..], content);
    }
  }

  /** The lines read for the session of a prompt between its request and its answer. */
  function Read(events: seq<Event>, p: Id, sid: Id): seq<Entry> {
    var entries := FrameAfter(Start(), events, Frame(Unopened, []), p, sid).entries;
    if entries == [] then [] else entries[..|entries| - 1]
  }

  /** What the collector makes of the lines that were read: all of them uncut, or a prefix of them. */
  ghost predicate IsEvidenceOf(o: Outcome, read: seq<Entry>, content: Entry -> Collector.Update, turn: Turn,
                             limits: Limits) {
    && (o.Returned? <==> StopOf(turn).Some? && !Over(limits, Contents(read, content)))
    && (o.Returned? ==>
          && StopOf(turn) == Some(o.stop)
          && |o.updates| == |read|
          && forall i :: 0 <= i < |read| ==> o.updates[i] == Whole(content(read[i])))
    && (o.Exceeded? ==>
          && |o.evidence.retained| <= |read|
          && forall i :: 0 <= i < |o.evidence.retained| ==> o.evidence.retained[i].original == content(read[i]))
  }

  lemma EpochCollected(read: seq<Entry>, content: Entry -> Collector.Update, turn: Turn, limits: Limits,
                       cancelFails: bool)
    requires Marker !in read && Wake !in read
    ensures IsEvidenceOf(Collected(limits, Yielded(read + [Marker], content, turn), cancelFails), read, content, turn,
                       limits)
  {
    hide Collected, Over, Yielded, StopOf;
    EpochYields(read, content, turn);
    ReturnIsComplete(limits, Yielded(read + [Marker], content, turn), cancelFails);
    EvidenceIsBoundedPrefix(limits, Yielded(read + [Marker], content, turn), cancelFails);
  }

  /** A consumer that has popped the marker has popped what was read for its session, and then the marker. */
  lemma PoppedIsRead(events: seq<Event>, p: Id)
    requires var s := Run(Start(), events); IsOpen(s.link) && p in s.client.prompts
    ensures var run := Run(Start(), events).client.prompts[p];
      && run.popped <= |run.entered|
      && (Marker in run.entered[..run.popped] ==>
            && run.entered[..run.popped] == Read(events, p, run.session) + [Marker]
            && Marker !in Read(events, p, run.session) && Wake !in Read(events, p, run.session))
  {
    hide Run, FrameAfter;
    MarkerEndsTheEpoch(events, p);
    var run := Run(Start(), events).client.prompts[p];
    FrameTerminated(Start(), events, Frame(Unopened, []), p, run.session);
    if Marker in run.entered[..run.popped] { assert run.entered == Read(events, p, run.session) + [Marker]; }
  }

  /**
   Once the consumer of a prompt has popped its marker, the evidence collected for the prompt is what was
   read for its session between its request and its answer, position by position: all of it, and
   uncut, if collecting returns, which it does if and only if the stop reason is known and both limits
   are kept; otherwise a prefix of it.
   */
  lemma EvidenceIsFrame(events: seq<Event>, p: Id, content: Entry -> Collector.Update, turn: Turn, limits: Limits,
                        cancelFails: bool)
    requires var s := Run(Start(), events); IsOpen(s.link) && p in s.client.prompts
    ensures var run := Run(Start(), events).client.prompts[p];
      && run.popped <= |run.entered|
      && (Marker in run.entered[..run.popped] ==>
            IsEvidenceOf(Collected(limits, Yielded(run.entered[..run.popped], content, turn), cancelFails),
                       Read(events, p, run.session), content, turn, limits))
  {
    hide Run, Read, IsEvidenceOf, Collected, Yielded;
    PoppedIsRead(events, p);
    var run := Run(Start(), events).client.prompts[p];
    if Marker in run.entered[..run.popped] {
      EpochCollected(Read(events, p, run.session), content, turn, limits, cancelFails);
    }
  }
}
