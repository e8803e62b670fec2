/**
 The evidence collector of one prompt (`_collect_prompt`, direct_service.py).

 It reads the updates of a prompt until one is marked as done. From the first
 update that exceeds a limit on it keeps reading, so that the child can settle the
 cancellation it is sent, but what it retains stays a bounded prefix.
 */
module Collector {
  import opened Wrappers
  import opened DirectState
  import opened Utf8
  import ServiceModel

  /** An update with the size of its JSON encoding. */
  datatype Update =
    | TextChunk(text: string, bytes: nat)      // an agent_message_chunk with text content
    | OtherUpdate(kind: nat, bytes: nat)

  /** What the prompt stream yields: an update, or an item marked as done with its stop reason. */
  datatype Item = Progress(update: Update) | Done(stopReason: Option<string>)

  datatype Kept = Whole(original: Update) | Bounded(original: Update, prefix: string)

  datatype Limits = Limits(maxEventBytes: nat, maxResponseBytes: nat)

  datatype Evidence = Evidence(
    retained: seq<Kept>,
    eventBytes: nat,
    responseBytes: nat,
    eventLimitExceeded: bool,
    responseLimitExceeded: bool)

  datatype Outcome =
    | Returned(updates: seq<Kept>, stop: StopReason)
    | Exceeded(settledCancelled: bool, evidence: Evidence)
    | Raised

  /** `DIRECT_STOP_REASONS` */
  function KnownStop(stopReason: Option<string>): Option<StopReason> {
    match stopReason
    case Some("end_turn") => Some(EndTurn)
    case Some("max_tokens") => Some(MaxTokens)
    case Some("max_turn_requests") => Some(MaxTurnRequests)
    case Some("refusal") => Some(Refusal)
    case Some("cancelled") => Some(StopCancelled)
    case _ => None
  }

  // ----- what a stream contains -----

  /** The updates before the first item marked as done. */
  function Updates(stream: seq<Item>): seq<Update> {
    if stream == [] || stream[0].Done? then [] else [stream[0].update] + Updates(stream[1..])
  }

  /** The stop reason of the first item marked as done. */
  function Stop(stream: seq<Item>): Option<StopReason> {
    if stream == [] then None
    else if stream[0].Done? then KnownStop(stream[0].stopReason)
    else Stop(stream[1..])
  }

  function TextOf(u: Update): string {
    if u.TextChunk? then u.text else ""
  }

  function EventBytes(updates: seq<Update>): nat {
    if updates == [] then 0 else updates[0].bytes + EventBytes(updates[1..])
  }

  function FullText(updates: seq<Update>): string {
    if updates == [] then "" else TextOf(updates[0]) + FullText(updates[1..])
  }

  predicate Over(limits: Limits, updates: seq<Update>) {
    EventBytes(updates) > limits.maxEventBytes || Length(FullText(updates)) > limits.maxResponseBytes
  }

  /** The position of the update that first exceeds a limit, searched from `k` on. */
  function FirstOver(limits: Limits, updates: seq<Update>, k: nat): (n: nat)
    requires k <= |updates| && Over(limits, updates) && !Over(limits, updates[..k])
    ensures k <= n < |updates| && !Over(limits, updates[..n]) && Over(limits, updates[..n + 1])
    decreases |updates| - k
  {
    hide Over;
    assert updates[..|updates|] == updates;
    if Over(limits, updates[..k + 1]) then k else FirstOver(limits, updates, k + 1)
  }

  // ----- what is retained -----

  function AtLeastZero(n: int): nat {
    if n < 0 then 0 else n
  }

  /** How an update is retained when this many bytes of response text may still follow. */
  function Clip(u: Update, room: int): Kept {
    if u.TextChunk? && Length(u.text) > room then Bounded(u, Utf8Prefix(u.text, AtLeastZero(room))) else Whole(u)
  }

  function Retain(updates: seq<Update>, eventRoom: int, textRoom: int): seq<Kept> {
    if updates == [] || updates[0].bytes > eventRoom then []
    else
      [Clip(updates[0], textRoom)]
      + Retain(updates[1..], eventRoom - updates[0].bytes, textRoom - Length(TextOf(updates[0])))
  }

  function KeptText(k: Kept): string {
    if k.Bounded? then k.prefix else TextOf(k.original)
  }

  function RetainedText(kept: seq<Kept>): string {
    if kept == [] then "" else KeptText(kept[0]) + RetainedText(kept[1..])
  }

  function EvidenceOf(limits: Limits, updates: seq<Update>, retained: seq<Kept>): Evidence {
    Evidence(retained, EventBytes(updates), Length(FullText(updates)),
             EventBytes(updates) > limits.maxEventBytes, Length(FullText(updates)) > limits.maxResponseBytes)
  }

  /**
   What collecting a stream amounts to. When a limit is exceeded and the cancellation cannot be
   sent, collecting ends there; otherwise the stop reason decides.
   */
  function Collected(limits: Limits, stream: seq<Item>, cancelFails: bool): Outcome {
    var updates := Updates(stream);
    if Over(limits, updates) && cancelFails then
      var n := FirstOver(limits, updates, 0);
      Exceeded(false, EvidenceOf(limits, updates[..n + 1],
                                 Retain(updates[..n], limits.maxEventBytes, limits.maxResponseBytes)))
    else if Stop(stream).None? then
      Raised
    else
      var retained := Retain(updates, limits.maxEventBytes, limits.maxResponseBytes);
      if Over(limits, updates) then
        Exceeded(Stop(stream).value.StopCancelled?, EvidenceOf(limits, updates, retained))
      else
        Returned(retained, Stop(stream).value)
  }

  // ----- appending one update -----

  lemma {:induction false} EventBytesAppend(a: seq<Update>, b: seq<Update>)
    ensures EventBytes(a + b) == EventBytes(a) + EventBytes(b)
  {
    if a == [] {
      assert a + b == b;
    } else {
      assert (a + b)[1..] == a[1..] + b;
      EventBytesAppend(a[1..], b);
    }
  }

  lemma {:induction false} FullTextAppend(a: seq<Update>, b: seq<Update>)
    ensures FullText(a + b) == FullText(a) + FullText(b)
  {
    if a == [] {
      assert a + b == b;
    } else {
      assert (a + b)[1..] == a[1..] + b;
      FullTextAppend(a[1..], b);
      assert TextOf(a[0]) + (FullText(a[1..]) + FullText(b)) == FullText(a) + FullText(b);
    }
  }

  lemma TotalsAppend(a: seq<Update>, b: seq<Update>)
    ensures EventBytes(a + b) == EventBytes(a) + EventBytes(b)
    ensures FullText(a + b) == FullText(a) + FullText(b)
    ensures Length(FullText(a + b)) == Length(FullText(a)) + Length(FullText(b))
  {
    EventBytesAppend(a, b);
    FullTextAppend(a, b);
    LengthAppend(FullText(a), FullText(b));
  }

  /** The totals of one update, and of those that follow a first one. */
  lemma TotalsOne(u: Update, updates: seq<Update>)
    ensures EventBytes([u]) == u.bytes && FullText([u]) == TextOf(u)
    ensures EventBytes([u] + updates) == u.bytes + EventBytes(updates)
    ensures Length(FullText([u] + updates)) == Length(TextOf(u)) + Length(FullText(updates))
  {
    assert [u][1..] == [] && TextOf(u) + "" == TextOf(u);
    TotalsAppend([u], updates);
  }

  lemma OverStays(limits: Limits, seen: seq<Update>, more: seq<Update>)
    ensures Over(limits, seen) ==> Over(limits, seen + more)
  {
    TotalsAppend(seen, more);
  }

  lemma FirstOverIs(limits: Limits, updates: seq<Update>, k: nat, n: nat)
    requires k <= n < |updates| && !Over(limits, updates[..n]) && Over(limits, updates[..n + 1])
    ensures Over(limits, updates) && !Over(limits, updates[..k])
    ensures FirstOver(limits, updates, k) == n
    decreases n - k
  {
    hide Over;
    OverCut(limits, updates, n + 1, |updates|);
    assert updates[..|updates|] == updates;
    OverCut(limits, updates, k, n);
    if k < n {
      OverCut(limits, updates, k + 1, n);
      FirstOverIs(limits, updates, k + 1, n);
    }
  }

  /** What exceeds a limit still does with more after it. */
  lemma OverCut(limits: Limits, updates: seq<Update>, k: nat, n: nat)
    requires k <= n <= |updates|
    ensures Over(limits, updates[..k]) ==> Over(limits, updates[..n])
  {
    hide Over;
    OverStays(limits, updates[..k], updates[k..n]);
    assert updates[..k] + updates[k..n] == updates[..n];
  }

  lemma NoTotals()
    ensures EventBytes([]) == 0 && FullText([]) == "" && Length("") == 0
    ensures forall eventRoom, textRoom :: Retain([], eventRoom, textRoom) == []
  {
  }

  lemma {:induction false} RetainOneMore(updates: seq<Update>, u: Update, eventRoom: int, textRoom: int)
    ensures Retain(updates + [u], eventRoom, textRoom) ==
      Retain(updates, eventRoom, textRoom)
      + if EventBytes(updates) + u.bytes > eventRoom then [] else [Clip(u, textRoom - Length(FullText(updates)))]
  {
    hide Clip, TextOf, Length, FullText, EventBytes;
    NoTotals();
    if updates == [] {
      assert [] + [u] == [u] && [u][1..] == [];
    } else {
      var u0, rest := updates[0], updates[1..];
      assert updates == [u0] + rest && (updates + [u])[0] == u0 && (updates + [u])[1..] == rest + [u];
      TotalsOne(u0, rest);
      RetainOneMore(rest, u, eventRoom - u0.bytes, textRoom - Length(TextOf(u0)));
    }
  }

  /** How one more update changes the totals and what is retained. */
  lemma SeeOneMore(limits: Limits, before: seq<Update>, u: Update)
    ensures var seen := before + [u];
      && EventBytes(seen) == EventBytes(before) + u.bytes
      && Length(FullText(seen)) == Length(FullText(before)) + (if u.TextChunk? then Length(u.text) else 0)
      && Retain(seen, limits.maxEventBytes, limits.maxResponseBytes) ==
           Retain(before, limits.maxEventBytes, limits.maxResponseBytes)
           + if EventBytes(seen) > limits.maxEventBytes then []
             else if u.TextChunk? && Length(FullText(seen)) > limits.maxResponseBytes
             then [Bounded(u, Utf8Prefix(u.text, AtLeastZero(limits.maxResponseBytes - Length(FullText(before)))))]
             else [Whole(u)]
  {
    hide Length, Utf8Prefix, FullText, EventBytes, Retain;
    NoTotals();
    TotalsAppend(before, [u]);
    TotalsOne(u, []);
    RetainOneMore(before, u, limits.maxEventBytes, limits.maxResponseBytes);
  }

  // ----- the loop -----

  lemma NoItems(stream: seq<Item>)
    ensures Updates([]) == [] && Stop([]).None?
    ensures stream[0..] == stream && stream[|stream|..] == [] && [] + Updates(stream) == Updates(stream)
  {
  }

  /** What the item at `i` adds to the updates seen before it. */
  lemma NextItem(stream: seq<Item>, i: nat, seen: seq<Update>)
    requires i < |stream|
    ensures if stream[i].Done? then
        seen + Updates(stream[i..]) == seen && Stop(stream[i..]) == KnownStop(stream[i].stopReason)
      else
        && seen + Updates(stream[i..]) == seen + ([stream[i].update] + Updates(stream[i + 1..]))
        && seen + Updates(stream[i..]) == (seen + [stream[i].update]) + Updates(stream[i + 1..])
        && Stop(stream[i..]) == Stop(stream[i + 1..])
  {
    hide KnownStop;
    assert stream[i..][1..] == stream[i + 1..];
  }

  /** Collecting that is not cut short comes to what the stop reason and the limits say. */
  lemma CollectingEnds(limits: Limits, stream: seq<Item>, cancelFails: bool)
    requires !(Over(limits, Updates(stream)) && cancelFails)
    ensures var updates := Updates(stream);
      var retained := Retain(updates, limits.maxEventBytes, limits.maxResponseBytes);
      Collected(limits, stream, cancelFails) ==
        if Stop(stream).None? then Raised
        else if Over(limits, updates) then
          Exceeded(Stop(stream).value.StopCancelled?, EvidenceOf(limits, updates, retained))
        else Returned(retained, Stop(stream).value)
  {
    hide Retain, Over, Stop, Updates, EvidenceOf;
  }

  lemma CollectingCutShort(limits: Limits, stream: seq<Item>, before: seq<Update>, u: Update, rest: seq<Update>)
    requires Updates(stream) == before + ([u] + rest) && !Over(limits, before) && Over(limits, before + [u])
    ensures Over(limits, Updates(stream))
    ensures Collected(limits, stream, true) ==
      Exceeded(false, EvidenceOf(limits, before + [u], Retain(before, limits.maxEventBytes, limits.maxResponseBytes)))
  {
    hide Retain, Over, Stop, Updates, EvidenceOf, FirstOver;
    CutShort(limits, Updates(stream), before, u, rest);
  }

  /**
   `_collect_prompt`. The stream is what the prompt yields before it ends or breaks off; without
   an item marked as done both raise. `cancelFails` says whether sending the cancellation raises.
   */
  method CollectPrompt(limits: Limits, stream: seq<Item>, cancelFails: bool)
    returns (outcome: Outcome, cancelsSent: nat)
    ensures outcome == Collected(limits, stream, cancelFails)
    ensures cancelsSent == if Over(limits, Updates(stream)) then 1 else 0
  {
    hide Length, Utf8Prefix, FullText, EventBytes, KnownStop, FirstOver, Retain, Clip, TextOf, Collected, Updates,
      Stop;
    NoTotals();
    NoItems(stream);
    cancelsSent := 0;
    var updates: seq<Kept> := [];
    var eventBytes, responseBytes := 0, 0;
    var eventLimitExceeded, responseLimitExceeded, limitExceeded, cancelSent := false, false, false, false;
    var stop: Option<StopReason> := None;
    var i := 0;
    ghost var seen: seq<Update> := [];
    while i < |stream|
      invariant 0 <= i <= |stream|
      invariant Updates(stream) == seen + Updates(stream[i..]) && Stop(stream) == Stop(stream[i..])
      invariant eventBytes == EventBytes(seen) && responseBytes == Length(FullText(seen))
      invariant eventLimitExceeded <==> eventBytes > limits.maxEventBytes
      invariant responseLimitExceeded <==> responseBytes > limits.maxResponseBytes
      invariant limitExceeded == cancelSent == Over(limits, seen)
      invariant cancelsSent == (if cancelSent then 1 else 0) && (cancelSent ==> !cancelFails)
      invariant updates == Retain(seen, limits.maxEventBytes, limits.maxResponseBytes)
    {
      NextItem(stream, i, seen);
      var item := stream[i];
      i := i + 1;
      if item.Done? {
        stop := KnownStop(item.stopReason);
        if stop.None? {
          CollectingEnds(limits, stream, cancelFails);
          return Raised, cancelsSent;
        }
        break;
      }
      var update := item.update;
      ghost var before, rest := seen, Updates(stream[i..]);
      seen := before + [update];
      SeeOneMore(limits, before, update);
      eventBytes := eventBytes + update.bytes;
      if eventBytes > limits.maxEventBytes {
        eventLimitExceeded := true;
      }
      var retained := Whole(update);
      if update.TextChunk? {
        var remaining := AtLeastZero(limits.maxResponseBytes - responseBytes);
        responseBytes := responseBytes + Length(update.text);
        if responseBytes > limits.maxResponseBytes {
          responseLimitExceeded := true;
          retained := Bounded(update, Utf8Prefix(update.text, remaining));
        }
      }
      limitExceeded := eventLimitExceeded || responseLimitExceeded;
      if limitExceeded && !cancelSent {
        cancelSent, cancelsSent := true, cancelsSent + 1;
        if cancelFails {
          CollectingCutShort(limits, stream, before, update, rest);
          return Exceeded(false,
            Evidence(updates, eventBytes, responseBytes, eventLimitExceeded, responseLimitExceeded)),
                 cancelsSent;
        }
      }
      if !eventLimitExceeded {
        updates := updates + [retained];
      }
    }
    assert Updates(stream) == seen by { assert seen + [] == seen; }
    CollectingEnds(limits, stream, cancelFails);
    if stop.None? {
      return Raised, cancelsSent;
    }
    if limitExceeded {
      outcome := Exceeded(stop.value.StopCancelled?,
                          Evidence(updates, eventBytes, responseBytes, eventLimitExceeded, responseLimitExceeded));
    } else {
      outcome := Returned(updates, stop.value);
    }
  }

  lemma CutShort(limits: Limits, updates: seq<Update>, before: seq<Update>, u: Update, rest: seq<Update>)
    requires updates == before + ([u] + rest) && !Over(limits, before) && Over(limits, before + [u])
    ensures Over(limits, updates) && !Over(limits, updates[..0])
    ensures FirstOver(limits, updates, 0) == |before|
    ensures updates[..|before|] == before && updates[..|before| + 1] == before + [u]
  {
    assert updates[..|before|] == before && updates[..|before| + 1] == before + [u];
    FirstOverIs(limits, updates, 0, |before|);
  }

  // ----- what the outcome guarantees -----

  /** The retained updates are those before the first that breaks the event limit, position by position. */
  lemma {:induction false} RetainedIsPrefix(updates: seq<Update>, eventRoom: int, textRoom: int)
    ensures var kept := Retain(updates, eventRoom, textRoom);
      && |kept| <= |updates|
      && (forall i :: 0 <= i < |kept| ==> kept[i].original == updates[i])
      && (eventRoom >= 0 ==> EventBytes(updates[..|kept|]) <= eventRoom)
      && (|kept| < |updates| ==> EventBytes(updates[..|kept| + 1]) > eventRoom)
  {
    hide Clip, Length;
    var kept := Retain(updates, eventRoom, textRoom);
    if updates == [] {
    } else if updates[0].bytes > eventRoom {
      assert updates[..1] == [updates[0]];
      TotalsOne(updates[0], []);
    } else {
      var rest := updates[1..];
      var room := textRoom - Length(TextOf(updates[0]));
      RetainedIsPrefix(rest, eventRoom - updates[0].bytes, room);
      var tail := Retain(rest, eventRoom - updates[0].bytes, room);
      ClipKeeps(updates[0], textRoom);
      assert kept[1..] == tail;
      SliceOnce(updates, |tail|);
      TotalsOne(updates[0], rest[..|tail|]);
      if |kept| < |updates| {
        SliceOnce(updates, |kept|);
        TotalsOne(updates[0], rest[..|tail| + 1]);
      }
    }
  }

  lemma ClipKeeps(u: Update, room: int)
    ensures Clip(u, room).original == u
  {
  }

  /** The retained response text is the longest prefix of the response text that fits the limit. */
  lemma {:induction false} RetainedTextIsLongestPrefix(updates: seq<Update>, eventRoom: int, textRoom: int)
    ensures var kept := Retain(updates, eventRoom, textRoom);
      && |kept| <= |updates|
      && RetainedText(kept) == Utf8Prefix(FullText(updates[..|kept|]), textRoom)
  {
    hide Length, Utf8Prefix, Clip, FullText, RetainedText;
    RetainedCount(updates, eventRoom, textRoom);
    if updates == [] || updates[0].bytes > eventRoom {
      assert updates[..0] == [];
      NoText(textRoom);
    } else {
      var rest, room := updates[1..], textRoom - Length(TextOf(updates[0]));
      var tail := Retain(rest, eventRoom - updates[0].bytes, room);
      RetainedTextIsLongestPrefix(rest, eventRoom - updates[0].bytes, room);
      SliceOnce(updates, |tail|);
      RetainedJoin(updates[0], rest[..|tail|], tail, textRoom);
    }
  }

  lemma {:induction false} RetainedCount(updates: seq<Update>, eventRoom: int, textRoom: int)
    ensures |Retain(updates, eventRoom, textRoom)| <= |updates|
  {
    hide Clip, Length;
    if updates != [] && updates[0].bytes <= eventRoom {
      RetainedCount(updates[1..], eventRoom - updates[0].bytes, textRoom - Length(TextOf(updates[0])));
    }
  }

  lemma RetainedJoin(u: Update, rest: seq<Update>, tail: seq<Kept>, room: int)
    requires RetainedText(tail) == Utf8Prefix(FullText(rest), room - Length(TextOf(u)))
    ensures RetainedText([Clip(u, room)] + tail) == Utf8Prefix(FullText([u] + rest), room)
  {
    hide Length, Utf8Prefix, Clip;
    assert ([Clip(u, room)] + tail)[1..] == tail && ([u] + rest)[1..] == rest;
    ClippedText(u, FullText(rest), room);
  }

  lemma NoText(room: int)
    ensures Utf8Prefix("", room) == "" && RetainedText([]) == "" && FullText([]) == ""
  {
  }

  lemma ClippedText(u: Update, more: string, room: int)
    ensures KeptText(Clip(u, room)) + Utf8Prefix(more, room - Length(TextOf(u))) == Utf8Prefix(TextOf(u) + more, room)
  {
    PrefixAppend(TextOf(u), more, room);
    if u.TextChunk? && Length(u.text) > room {
      assert Utf8Prefix(more, room - Length(u.text)) == "";
      assert Utf8Prefix(u.text, AtLeastZero(room)) == Utf8Prefix(u.text, room);
    } else if room < 0 {
      assert TextOf(u) == "";
    }
  }

  /** The evidence of an outcome. */
  function RetainedBy(o: Outcome): seq<Kept> {
    match o
    case Returned(updates, _) => updates
    case Exceeded(_, evidence) => evidence.retained
    case Raised => []
  }

  predicate Fits(limits: Limits, updates: seq<Update>, kept: seq<Kept>) {
    && |kept| <= |updates|
    && (forall i :: 0 <= i < |kept| ==> kept[i].original == updates[i])
    && EventBytes(updates[..|kept|]) <= limits.maxEventBytes
    && RetainedText(kept) <= FullText(updates)
    && Length(RetainedText(kept)) <= limits.maxResponseBytes
  }

  lemma RetentionFits(limits: Limits, updates: seq<Update>, n: nat)
    requires n <= |updates|
    ensures Fits(limits, updates, Retain(updates[..n], limits.maxEventBytes, limits.maxResponseBytes))
  {
    hide Length, Retain, EventBytes, FullText, RetainedText;
    RetainedIsPrefix(updates[..n], limits.maxEventBytes, limits.maxResponseBytes);
    RetainedTextFits(limits, updates, n);
    var k := |Retain(updates[..n], limits.maxEventBytes, limits.maxResponseBytes)|;
    Slices(updates, k, n);
  }

  lemma Slices(updates: seq<Update>, k: nat, n: nat)
    requires k <= n <= |updates|
    ensures updates[..n][..k] == updates[..k] && updates[..k] + updates[k..] == updates
  {
  }

  lemma SliceOnce(updates: seq<Update>, k: nat)
    requires k < |updates|
    ensures updates[..k + 1] == [updates[0]] + updates[1..][..k]
  {
  }

  lemma RetainedTextFits(limits: Limits, updates: seq<Update>, n: nat)
    requires n <= |updates|
    ensures var kept := Retain(updates[..n], limits.maxEventBytes, limits.maxResponseBytes);
      RetainedText(kept) <= FullText(updates) && Length(RetainedText(kept)) <= limits.maxResponseBytes
  {
    hide Length, Utf8Prefix, Retain, EventBytes, FullText, RetainedText;
    RetainedIsPrefix(updates[..n], limits.maxEventBytes, limits.maxResponseBytes);
    RetainedTextIsLongestPrefix(updates[..n], limits.maxEventBytes, limits.maxResponseBytes);
    var k := |Retain(updates[..n], limits.maxEventBytes, limits.maxResponseBytes)|;
    Slices(updates, k, n);
    FullTextAppend(updates[..k], updates[k..]);
    LongestFittingPrefix(FullText(updates[..k]), limits.maxResponseBytes, "");
  }

  /** Whatever the stream and the limits: the evidence is a prefix of the stream within both limits. */
  lemma EvidenceIsBoundedPrefix(limits: Limits, stream: seq<Item>, cancelFails: bool)
    ensures Fits(limits, Updates(stream), RetainedBy(Collected(limits, stream, cancelFails)))
  {
    var updates := Updates(stream);
    hide Fits, Retain;
    RetentionFits(limits, updates, |updates|);
    assert updates[..|updates|] == updates;
    RetentionFits(limits, updates, 0);
    assert Retain([], limits.maxEventBytes, limits.maxResponseBytes) == [] by { NoTotals(); }
    assert updates[..0] == [];
    if Over(limits, updates) && cancelFails { RetentionFits(limits, updates, FirstOver(limits, updates, 0)); }
  }

  /** Collecting returns exactly when a known stop reason arrives within both limits, and then nothing was cut. */
  lemma ReturnIsComplete(limits: Limits, stream: seq<Item>, cancelFails: bool)
    ensures var o := Collected(limits, stream, cancelFails);
      && (o.Returned? <==> Stop(stream).Some? && !Over(limits, Updates(stream)))
      && (o.Returned? ==>
            && Stop(stream) == Some(o.stop)
            && |o.updates| == |Updates(stream)|
            && forall i :: 0 <= i < |o.updates| ==> o.updates[i] == Whole(Updates(stream)[i]))
  {
    hide Retain;
    if !Over(limits, Updates(stream)) { AllWhole(Updates(stream), limits.maxEventBytes, limits.maxResponseBytes); }
  }

  lemma {:induction false} AllWhole(updates: seq<Update>, eventRoom: int, textRoom: int)
    requires EventBytes(updates) <= eventRoom && Length(FullText(updates)) <= textRoom
    ensures var kept := Retain(updates, eventRoom, textRoom);
      |kept| == |updates| && forall i :: 0 <= i < |kept| ==> kept[i] == Whole(updates[i])
  {
    hide Length, Utf8Prefix, EventBytes, FullText;
    if updates != [] {
      assert updates == [updates[0]] + updates[1..];
      TotalsOne(updates[0], updates[1..]);
      AllWhole(updates[1..], eventRoom - updates[0].bytes, textRoom - Length(TextOf(updates[0])));
    }
  }

  /** How the service sees the outcome. */
  function Settles(o: Outcome): ServiceModel.CollectorOutcome {
    match o
    case Returned(_, stop) => ServiceModel.CollectorOutcome.Returned(stop)
    case Exceeded(settledCancelled, _) => ServiceModel.Overflowed(settledCancelled)
    case Raised => ServiceModel.CollectorOutcome.Raised
  }

  /** An overflow counts as settled only when the child stopped as cancelled after it was sent a cancellation. */
  lemma SettledOnlyIfCancelled(limits: Limits, stream: seq<Item>, cancelFails: bool)
    ensures Settles(Collected(limits, stream, cancelFails)) == ServiceModel.Overflowed(true) <==>
      Over(limits, Updates(stream)) && !cancelFails && Stop(stream) == Some(StopCancelled)
  {
    hide Over, Retain;
  }

  // ----- the outcome by the text of the stop reason -----

  /** The first item marked as done. */
  predicate DoneAt(stream: seq<Item>, k: nat) {
    k < |stream| && stream[k].Done? && forall i :: 0 <= i < k ==> stream[i].Progress?
  }

  lemma {:induction false} UpToDone(stream: seq<Item>, k: nat)
    requires DoneAt(stream, k)
    ensures Stop(stream) == KnownStop(stream[k].stopReason)
    ensures |Updates(stream)| == k && forall i :: 0 <= i < k ==> Updates(stream)[i] == stream[i].update
  {
    hide KnownStop;
    if k > 0 {
      assert stream[0].Progress? && DoneAt(stream[1..], k - 1);
      UpToDone(stream[1..], k - 1);
    }
  }

  lemma {:induction false} NeverDone(stream: seq<Item>)
    requires forall i :: 0 <= i < |stream| ==> stream[i].Progress?
    ensures Stop(stream).None?
    ensures |Updates(stream)| == |stream| && forall i :: 0 <= i < |stream| ==> Updates(stream)[i] == stream[i].update
  {
    if stream != [] {
      assert stream[0].Progress?;
      NeverDone(stream[1..]);
    }
  }

  /** The texts that the child may give as its stop reason, other than cancelled. */
  const OTHER_STOPS: set<string> := {"end_turn", "max_tokens", "max_turn_requests", "refusal"}

  /** What collecting comes to, by the text of the first item marked as done and by the limits. */
  lemma OutcomeByText(limits: Limits, stream: seq<Item>, cancelFails: bool, k: nat)
    requires DoneAt(stream, k)
    ensures var o := Collected(limits, stream, cancelFails); var text := stream[k].stopReason;
      var over := Over(limits, Updates(stream));
      && (o.Returned? && o.stop == StopCancelled <==> text == Some("cancelled") && !over)
      && (o.Returned? && o.stop == EndTurn <==> text == Some("end_turn") && !over)
      && (o.Returned? && o.stop == MaxTokens <==> text == Some("max_tokens") && !over)
      && (o.Returned? && o.stop == MaxTurnRequests <==> text == Some("max_turn_requests") && !over)
      && (o.Returned? && o.stop == Refusal <==> text == Some("refusal") && !over)
      && (o.Exceeded? && o.settledCancelled <==> over && !cancelFails && text == Some("cancelled"))
      && (o.Exceeded? && !o.settledCancelled <==>
            over && (cancelFails || (text.Some? && text.value in OTHER_STOPS)))
      && (o.Raised? <==>
            !(over && cancelFails) && !(text.Some? && (text.value == "cancelled" || text.value in OTHER_STOPS)))
  {
    UpToDone(stream, k);
    hide Over, Retain, Updates, Stop, FirstOver;
  }

  /** Without an item marked as done collecting raises, unless it ended at a cancellation that could not be sent. */
  lemma OutcomeWithoutDone(limits: Limits, stream: seq<Item>, cancelFails: bool)
    requires forall i :: 0 <= i < |stream| ==> stream[i].Progress?
    ensures var o := Collected(limits, stream, cancelFails); var over := Over(limits, Updates(stream));
      && (o.Raised? <==> !(over && cancelFails))
      && (o.Exceeded? && !o.settledCancelled <==> over && cancelFails)
  {
    NeverDone(stream);
    hide Over, Retain, Updates, Stop, FirstOver;
  }

  /** The evidence of an overflow counts every update that was read, and names the limits that were exceeded. */
  lemma EvidenceCounts(limits: Limits, stream: seq<Item>, cancelFails: bool) returns (n: nat)
    requires Collected(limits, stream, cancelFails).Exceeded?
    ensures var e := Collected(limits, stream, cancelFails).evidence; var updates := Updates(stream);
      && 0 < n <= |updates|
      && (!cancelFails ==> n == |updates|)
      && (cancelFails ==> !Over(limits, updates[..n - 1]) && Over(limits, updates[..n]))
      && e.eventBytes == EventBytes(updates[..n]) && e.responseBytes == |Encode(FullText(updates[..n]))|
      && (e.eventLimitExceeded <==> e.eventBytes > limits.maxEventBytes)
      && (e.responseLimitExceeded <==> e.responseBytes > limits.maxResponseBytes)
  {
    hide Retain, Stop, Updates, Length, EventBytes, FullText;
    NoTotals();
    var updates := Updates(stream);
    n := if cancelFails then FirstOver(limits, updates, 0) + 1 else |updates|;
    assert updates[..|updates|] == updates && updates[..0] == [];
    LengthIsEncoded(FullText(updates[..n]));
  }

  lemma LengthIsEncoded(s: string)
    ensures Length(s) == |Encode(s)|
  {
  }
}
