/**
 Negotiation of the model-binding strategy (`negotiate_direct_model_binding` and
 `_clear_client_state`, client.py).

 A negotiation awaits the child twice at most; between, others may start, end, or the
 client state may be cleared. A token identifies the negotiation that may still write.
 */
module ModelBinding {
  import opened Wrappers

  type Token = nat

  datatype Strategy = StandardConfig | CopilotSetModel

  datatype Stage = AwaitingStandard | AwaitingCopilot | Over

  /** A negotiation: the generation it started in, and what it awaits. */
  datatype Negotiation = Negotiation(generation: nat, stage: Stage)

  /** A write of the strategy, with the client generation it happened in. */
  datatype Write = Write(generation: nat, strategy: Strategy)

  datatype State = State(
    strategy: Option<Strategy>,
    negotiation: Option<Token>,
    generation: nat,
    runs: map<Token, Negotiation>,   // every negotiation that got a token
    writes: seq<Write>)              // every write of the strategy, in order

  function Start(): State {
    State(None, None, 0, map[], [])
  }

  /** What the child or the event loop does to the call that a negotiation awaits. */
  datatype Answer = Accepted | MethodMissing | Rejected | Interrupted

  datatype Event =
    | Begin(token: Token, catalogHolds: bool)
    | Answered(token: Token, answer: Answer)
    | Clear

  predicate Awaits(s: State, k: Token, stage: Stage) {
    k in s.runs && s.runs[k].stage == stage
  }

  function BeginNegotiation(s: State, k: Token, catalogHolds: bool): State {
    if s.strategy.Some? || s.negotiation.Some? || !catalogHolds then s
    else s.(negotiation := Some(k), runs := s.runs[k := Negotiation(s.generation, AwaitingStandard)])
  }

  /** The finally block. */
  function End(s: State, k: Token): State
    requires k in s.runs
  {
    s.(runs := s.runs[k := s.runs[k].(stage := Over)],
       negotiation := if s.negotiation == Some(k) then None else s.negotiation)
  }

  /** The write, unless the client state was cleared or the token replaced meanwhile. */
  function Conclude(s: State, k: Token, strategy: Strategy): State
    requires k in s.runs
  {
    if s.generation != s.runs[k].generation || s.negotiation != Some(k) then End(s, k)
    else End(s.(strategy := Some(strategy), writes := s.writes + [Write(s.generation, strategy)]), k)
  }

  function StandardAnswered(s: State, k: Token, a: Answer): State
    requires k in s.runs
  {
    match a
    case Accepted => Conclude(s, k, StandardConfig)
    case MethodMissing => s.(runs := s.runs[k := s.runs[k].(stage := AwaitingCopilot)])
    case _ => End(s, k)
  }

  function CopilotAnswered(s: State, k: Token, a: Answer): State
    requires k in s.runs
  {
    if a.Accepted? then Conclude(s, k, CopilotSetModel) else End(s, k)
  }

  function ClearState(s: State): State {
    s.(strategy := None, negotiation := None, generation := s.generation + 1)
  }

  function Next(s: State, e: Event): State {
    match e
    case Begin(k, catalogHolds) => if k in s.runs then s else BeginNegotiation(s, k, catalogHolds)
    case Answered(k, a) =>
      if Awaits(s, k, AwaitingStandard) then StandardAnswered(s, k, a)
      else if Awaits(s, k, AwaitingCopilot) then CopilotAnswered(s, k, a)
      else s
    case Clear => ClearState(s)
  }

  function Run(s: State, events: seq<Event>): State
    decreases |events|
  {
    if events == [] then s else Run(Next(s, events[0]), events[1..])
  }

  // ----- the invariant -----

  predicate Written(s: State, generation: nat) {
    exists i :: 0 <= i < |s.writes| && s.writes[i].generation == generation
  }

  ghost predicate Inv(s: State) {
    && (s.negotiation.Some? ==>
          && s.strategy.None?
          && s.negotiation.value in s.runs
          && s.runs[s.negotiation.value].generation == s.generation
          && !s.runs[s.negotiation.value].stage.Over?)
    && (forall k :: k in s.runs ==> s.runs[k].generation <= s.generation)
    && (forall i :: 0 <= i < |s.writes| ==> s.writes[i].generation <= s.generation)
    && (forall i, j :: 0 <= i < j < |s.writes| ==> s.writes[i].generation < s.writes[j].generation)
    && (s.strategy.None? ==> !Written(s, s.generation))
    && (s.strategy.Some? ==> |s.writes| > 0 && s.writes[|s.writes| - 1] == Write(s.generation, s.strategy.value))
  }

  lemma NextKeeps(s: State, e: Event)
    requires Inv(s)
    ensures Inv(Next(s, e))
    ensures s.writes <= Next(s, e).writes && s.generation <= Next(s, e).generation
  {
    match e
    case Begin(_, _) =>
    case Answered(k, a) => if k in s.runs && !s.runs[k].stage.Over? { AnsweredKeeps(s, k, a); }
    case Clear =>
  }

  lemma AnsweredKeeps(s: State, k: Token, a: Answer)
    requires Inv(s) && k in s.runs && !s.runs[k].stage.Over?
    ensures var s' := Next(s, Answered(k, a)); Inv(s') && s.writes <= s'.writes && s.generation <= s'.generation
  {
    hide Conclude, End, Inv;
    ConcludeKeeps(s, k, StandardConfig);
    ConcludeKeeps(s, k, CopilotSetModel);
    MissingKeeps(s, k);
  }

  lemma MissingKeeps(s: State, k: Token)
    requires Inv(s) && k in s.runs && !s.runs[k].stage.Over?
    ensures Inv(s.(runs := s.runs[k := s.runs[k].(stage := AwaitingCopilot)]))
  {
  }

  lemma ConcludeKeeps(s: State, k: Token, strategy: Strategy)
    requires Inv(s) && k in s.runs && !s.runs[k].stage.Over?
    ensures Inv(Conclude(s, k, strategy)) && Inv(End(s, k))
    ensures s.writes <= Conclude(s, k, strategy).writes && s.generation <= Conclude(s, k, strategy).generation
    ensures s.writes == End(s, k).writes && s.generation == End(s, k).generation
  {
  }

  lemma {:induction false} RunKeeps(s: State, events: seq<Event>)
    requires Inv(s)
    ensures Inv(Run(s, events)) && s.writes <= Run(s, events).writes && s.generation <= Run(s, events).generation
    decreases |events|
  {
    if events != [] {
      NextKeeps(s, events[0]);
      RunKeeps(Next(s, events[0]), events[1..]);
    }
  }

  // ----- the theorems -----

  /** In each client generation the strategy is written at most once, and the current strategy is that write. */
  lemma WrittenOncePerGeneration(events: seq<Event>, i: nat, j: nat)
    requires i < |Run(Start(), events).writes| && j < |Run(Start(), events).writes|
    ensures var s := Run(Start(), events);
      && (s.writes[i].generation == s.writes[j].generation ==> i == j)
      && (s.writes[i].generation == s.generation ==> s.strategy == Some(s.writes[i].strategy))
  {
    RunKeeps(Start(), events);
    var s := Run(Start(), events);
    if s.writes[i].generation == s.generation { assert Written(s, s.generation); }
  }

  /** Within a generation the strategy never changes once it is set. */
  lemma FrozenWithinGeneration(events: seq<Event>, more: seq<Event>)
    requires Run(Start(), events).strategy.Some?
    requires Run(Run(Start(), events), more).generation == Run(Start(), events).generation
    ensures Run(Run(Start(), events), more).strategy == Run(Start(), events).strategy
  {
    RunKeeps(Start(), events);
    var s := Run(Start(), events);
    RunKeeps(s, more);
    var t := Run(s, more);
    var i := |s.writes| - 1;
    assert t.writes[i] == s.writes[i];
    assert Written(t, t.generation);
    assert i == |t.writes| - 1;
  }

  /** A negotiation from before a clearing neither writes the strategy nor takes away the token of a newer one. */
  lemma StaleNegotiationIsHarmless(events: seq<Event>, k: Token, a: Answer)
    requires var s := Run(Start(), events); k in s.runs && s.runs[k].generation < s.generation
    ensures var s := Run(Start(), events); var t := Next(s, Answered(k, a));
      t.strategy == s.strategy && t.negotiation == s.negotiation && t.writes == s.writes
  {
    RunKeeps(Start(), events);
  }

  /**
   Only the negotiation that holds the token can write the strategy or give the token up, and only in the
   generation it started in, while no strategy is set.
   */
  lemma OnlyTokenHolderActs(events: seq<Event>, k: Token, a: Answer)
    ensures var s := Run(Start(), events); var t := Next(s, Answered(k, a));
      t.negotiation != s.negotiation || t.strategy != s.strategy || t.writes != s.writes ==>
        && s.negotiation == Some(k) && t.negotiation.None?
        && k in s.runs && s.runs[k].generation == s.generation
        && s.strategy.None?
  {
    RunKeeps(Start(), events);
  }

  /**
   Which answer does what. The standard binding is written if and only if the standard call is accepted, the other
   if and only if the standard method is missing first and the second call is accepted, both for the token's holder
   in its own generation; any answer but a missing standard method ends the negotiation.
   */
  lemma AnswersDecide(s: State, k: Token, a: Answer)
    requires k in s.runs
    ensures var t := Next(s, Answered(k, a)); var stage := s.runs[k].stage;
      var holds := s.negotiation == Some(k) && s.runs[k].generation == s.generation;
      && (t.writes == s.writes + [Write(s.generation, StandardConfig)] <==>
            holds && stage.AwaitingStandard? && a.Accepted?)
      && (t.writes == s.writes + [Write(s.generation, CopilotSetModel)] <==>
            holds && stage.AwaitingCopilot? && a.Accepted?)
      && (t.writes != s.writes <==> holds && !stage.Over? && a.Accepted?)
      && (t.writes != s.writes ==> t.strategy == Some(t.writes[|s.writes|].strategy))
      && (t.writes == s.writes ==> t.strategy == s.strategy)
      && k in t.runs && t.runs[k].generation == s.runs[k].generation && t.generation == s.generation
      && (stage.AwaitingStandard? ==> (t.runs[k].stage.AwaitingCopilot? <==> a.MethodMissing?))
      && (t.runs[k].stage.Over? <==> !(stage.AwaitingStandard? && a.MethodMissing?))
      && (stage.Over? ==> t == s)
      && (t.negotiation == if !stage.Over? && t.runs[k].stage.Over? && s.negotiation == Some(k) then None
            else s.negotiation)
  {
    WritesDiffer(s.writes, Write(s.generation, StandardConfig), Write(s.generation, CopilotSetModel));
  }

  lemma WritesDiffer(writes: seq<Write>, a: Write, b: Write)
    ensures writes + [a] != writes && (a != b ==> writes + [a] != writes + [b])
    ensures writes + [b] != writes
  {
    assert (writes + [a])[|writes|] == a && (writes + [b])[|writes|] == b;
  }

  /**
   A negotiation starts awaiting the standard call, if and only if none is under way, none frozen,
   and the catalog holds.
   */
  lemma NegotiationStarts(s: State, k: Token, catalogHolds: bool)
    requires k !in s.runs
    ensures var t := Next(s, Begin(k, catalogHolds));
      if s.strategy.None? && s.negotiation.None? && catalogHolds then
        && t.negotiation == Some(k) && t.runs == s.runs[k := Negotiation(s.generation, AwaitingStandard)]
        && t.strategy == s.strategy && t.writes == s.writes && t.generation == s.generation
      else
        t == s
  {
  }

  /** Clearing forgets the strategy and the token, and begins a generation that no negotiation under way belongs to. */
  lemma ClearingForgets(events: seq<Event>, k: Token)
    ensures var s := Run(Start(), events); var t := Next(s, Clear);
      && t.strategy.None? && t.negotiation.None? && t.generation > s.generation
      && t.runs == s.runs && t.writes == s.writes
      && (k in t.runs ==> t.runs[k].generation < t.generation)
  {
    RunKeeps(Start(), events);
  }

  // ----- the object -----

  /** The fields of `AcpClient` that hold the binding; `runs` stands for the suspended coroutines. */
  class Binding {
    var strategy: Option<Strategy>
    var negotiation: Option<Token>
    var generation: nat
    var runs: map<Token, Negotiation>
    ghost var writes: seq<Write>

    constructor ()
      ensures View() == Start()
    {
      strategy, negotiation, generation, runs, writes := None, None, 0, map[], [];
    }

    ghost function View(): State
      reads this
    {
      State(strategy, negotiation, generation, runs, writes)
    }

    /**
     Up to the first await; raises when a strategy is frozen, a negotiation is under way, or the
     catalog is inconsistent.
     */
    method Begin(token: Token, catalogHolds: bool) returns (raised: bool)
      requires token !in runs
      modifies this
      ensures View() == Next(old(View()), Event.Begin(token, catalogHolds))
      ensures raised <==> old(strategy).Some? || old(negotiation).Some? || !catalogHolds
    {
      if strategy.Some? {
        return true;
      }
      if negotiation.Some? {
        return true;
      }
      if !catalogHolds {
        return true;
      }
      negotiation := Some(token);
      runs := runs[token := Negotiation(generation, AwaitingStandard)];
      raised := false;
    }

    /**
     The call that the negotiation awaits comes back: its result is the frozen strategy, unless it
     raises or awaits more.
     */
    method Resume(token: Token, answer: Answer) returns (frozen: Option<Strategy>)
      requires token in runs && !runs[token].stage.Over?
      modifies this
      ensures View() == Next(old(View()), Answered(token, answer))
      ensures frozen.Some? ==> strategy == frozen && runs[token].stage.Over?
      ensures frozen.Some? <==> writes != old(writes)
    {
      frozen := None;
      var run := runs[token];
      var selected: Option<Strategy> := None;
      if run.stage.AwaitingStandard? {
        if answer.MethodMissing? {
          runs := runs[token := run.(stage := AwaitingCopilot)];
          return;
        }
        if answer.Accepted? {
          selected := Some(StandardConfig);
        }
      } else if answer.Accepted? {
        selected := Some(CopilotSetModel);
      }
      if selected.Some? && generation == run.generation && negotiation == Some(token) {
        strategy := selected;
        writes := writes + [Write(generation, selected.value)];
        frozen := selected;
      }
      runs := runs[token := run.(stage := Over)];
      if negotiation == Some(token) {
        negotiation := None;
      }
    }

    /** What `_clear_client_state` does to the binding. */
    method ClearClientState()
      modifies this
      ensures View() == Next(old(View()), Clear)
    {
      strategy := None;
      negotiation := None;
      generation := generation + 1;
    }
  }
}
