/**
 One chat turn with its durable labels: `li_chat_endpoint`, `_execute_li_chat`,
 `_finish_claimed_chat_turn` (backend/app/main.py) and `apply_memory_capture`
 (backend/app/memory_capture.py). Every call that leaves the process, and every stretch of local
 code that may raise, is a boundary: it is recorded in `trace`, it may raise any exception at all,
 and what it returns is arbitrary. One stretch is assumed not to raise: between the end of
 `_execute_li_chat` and the label, the diagnostics are attached and the response is turned into
 plain JSON values.
 */
module ChatTurn {
  import opened Wrappers

  datatype Exn =
    | Http | RuntimeData | Capability | MemoryCapture | History | Model | Store | Intent | Value | Other
  {
    /** `except RuntimeDataError` also catches its subclass for a missing database function. */
    predicate IsRuntimeData() { RuntimeData? || Capability? }
  }

  datatype ClaimOutcome = Accepted | Replay | InProgress | UncertainBefore | Conflict | Expired | Unknown

  datatype Stage =
    | Bound | MessageSaved | ActionPrepared | ProviderDispatched | ProviderCompleted
    | ModelStarted | ResponseReady

  datatype Label = Completed | Failed | Uncertain

  /** A stored memory as a lookup returns it. */
  datatype Target = Target(explicitClass: bool, lowOrPersonal: bool)

  datatype Effect = Forget(target: Target) | Correct(target: Target) | StoreNew | Propose

  /** The calls of a turn besides its claim, stages, effects and labels, in the order of the code. */
  datatype Work =
    | CreateConversation | BindTurn | GetMessages | SearchHistory | AssembleContext | SaveMessage | FetchMail
    | DumpOutcome | AnalyzeMemory | ConfigureResearch | GetPlace | AskLi | SaveReply | PersistArtifact
    | PersistProposals | BuildResponse

  /** What an accepted claim grants: a token for this attempt, how far an earlier one got, its conversation. */
  datatype Grant = Grant(hasToken: bool, stage: nat, hasConversation: bool)

  /** `wellFormed` says whether the fields of a claim parse: its identifiers, or its stored response. */
  datatype Call =
    | Claim(outcome: ClaimOutcome, wellFormed: bool, grant: Grant)
    | Mark(stage: Stage)
    | Fence
    | Write(effect: Effect)
    | Draft                          // an approved email draft is dispatched
    | Lookup(matches: seq<Target>)
    | Finish(verdict: Label)
    | Step(work: Work)

  datatype Entry = Entry(call: Call, raised: Option<Exn>)

  datatype Email = NoEmail | ReadMail | UnapprovedDraft | ApprovedDraft

  datatype Action = Ignore | CorrectExplicit | ForgetIt | StoreExplicit | ProposeForTheo

  datatype Candidate = Candidate(action: Action, hasTarget: bool, hasDomain: bool, hasValue: bool, complete: bool)

  /** What the request asks for: `recalls` history, and `wantsArtifact`, a file of the answer. */
  datatype Payload = Payload(
    hasTurnId: bool, hasConversation: bool, email: Email, recalls: bool, wantsArtifact: bool)

  datatype TurnState = CompletedReplay | NowCompleted | DurabilityUnavailable

  datatype Reply = Returned(state: TurnState) | Raised(exn: Exn)

  // ----- what is claimed of a trace -----

  /** A claim that was accepted, whether or not its identifiers can be read. */
  predicate IsAccepted(e: Entry) { e.call.Claim? && e.call.outcome.Accepted? && e.raised.None? }

  /** The accepted claim that makes a turn durable. */
  predicate IsClaimed(e: Entry) { IsAccepted(e) && e.call.wellFormed }

  predicate IsReplayed(e: Entry) { e.call.Claim? && e.call.outcome.Replay? && e.call.wellFormed && e.raised.None? }

  predicate IsFence(e: Entry) { e.call.Fence? && e.raised.None? }

  predicate IsEffect(e: Entry) { e.call.Write? || e.call.Draft? }

  /** The lookup just before the write, or just before its fence, found exactly the target. */
  ghost predicate Resolved(trace: seq<Entry>, i: nat, target: Target)
    requires i < |trace|
  {
    && target.explicitClass && target.lowOrPersonal
    && var k := if i > 0 && IsFence(trace[i - 1]) then i - 2 else i - 1;
       k >= 0 && trace[k] == Entry(Lookup([target]), None)
  }

  /** A write at i is directly preceded by a durable fence, and changes only a resolved target. */
  ghost predicate WriteOk(trace: seq<Entry>, i: nat, hasTurnId: bool)
    requires i < |trace| && trace[i].call.Write?
  {
    && (hasTurnId ==> i > 0 && IsFence(trace[i - 1]))
    && (trace[i].call.effect.Forget? || trace[i].call.effect.Correct? ==>
          Resolved(trace, i, trace[i].call.effect.target))
  }

  ghost predicate WritesOk(trace: seq<Entry>, hasTurnId: bool) {
    forall i :: 0 <= i < |trace| && trace[i].call.Write? ==> WriteOk(trace, i, hasTurnId)
  }

  ghost predicate HasEffect(trace: seq<Entry>) { exists i :: 0 <= i < |trace| && IsEffect(trace[i]) }

  predicate HasFence(trace: seq<Entry>) { Entry(Fence, None) in trace }

  function ActionOf(effect: Effect): Action {
    match effect
    case Forget(_) => ForgetIt
    case Correct(_) => CorrectExplicit
    case StoreNew => StoreExplicit
    case Propose => ProposeForTheo
  }

  /** The memory writes a trace dispatched, in order. */
  function Actions(trace: seq<Entry>): seq<Action> { ActionsUpTo(trace, |trace|) }

  function ActionsUpTo(trace: seq<Entry>, n: nat): seq<Action>
    requires n <= |trace|
  {
    if n == 0 then []
    else
      var call := trace[n - 1].call;
      ActionsUpTo(trace, n - 1) + (if call.Write? then [ActionOf(call.effect)] else [])
  }

  lemma {:induction false} SameActions(before: seq<Entry>, after: seq<Entry>, n: nat)
    requires before <= after && n <= |before|
    ensures ActionsUpTo(after, n) == ActionsUpTo(before, n)
  {
    if n > 0 { SameActions(before, after, n - 1); }
  }

  /** The memory writes a batch of candidates asks for, in order. */
  function Wanted(candidates: seq<Candidate>): (r: seq<Action>)
    ensures forall a :: a in r ==> exists c :: c in candidates && c.action == a
  {
    if candidates == [] then []
    else
      var last := candidates[|candidates| - 1];
      Wanted(candidates[..|candidates| - 1]) + (if last.action.Ignore? then [] else [last.action])
  }

  lemma WantedSnoc(candidates: seq<Candidate>, k: nat)
    requires k < |candidates|
    ensures Wanted(candidates[..k + 1]) ==
            Wanted(candidates[..k]) + (if candidates[k].action.Ignore? then [] else [candidates[k].action])
  {
    assert candidates[..k + 1][..k] == candidates[..k];
  }

  lemma {:induction false} WantedPrefix(candidates: seq<Candidate>, k: nat)
    requires k <= |candidates|
    ensures Wanted(candidates[..k]) <= Wanted(candidates)
    decreases |candidates| - k
  {
    if k == |candidates| {
      assert candidates[..k] == candidates;
    } else {
      WantedSnoc(candidates, k);
      WantedPrefix(candidates, k + 1);
    }
  }

  /** After writes made before, the first k candidates ask for a beginning of what all ask for. */
  lemma WantedFits(base: seq<Action>, candidates: seq<Candidate>, k: nat)
    requires k <= |candidates|
    ensures base + Wanted(candidates[..k]) <= base + Wanted(candidates)
  {
    WantedPrefix(candidates, k);
  }

  lemma WantedNext(base: seq<Action>, candidates: seq<Candidate>, k: nat)
    requires k < |candidates|
    ensures base + Wanted(candidates[..k + 1]) ==
            base + Wanted(candidates[..k]) + (if candidates[k].action.Ignore? then [] else [candidates[k].action])
  {
    WantedSnoc(candidates, k);
  }

  lemma ActionsAppend(trace: seq<Entry>, e: Entry)
    ensures Actions(trace + [e]) == Actions(trace) + (if e.call.Write? then [ActionOf(e.call.effect)] else [])
  {
    SameActions(trace, trace + [e], |trace|);
  }

  // ----- which exceptions a turn survives -----

  /** An exception that the code around the call handles, so that the turn goes on. */
  predicate Tolerated(e: Entry) {
    e.raised.None? ||
    match e.call
    case Claim(_, _, _) => e.raised.value.Capability?
    case Mark(stage) => stage.MessageSaved? && e.raised.value.History?
    case Fence => e.raised.value.RuntimeData? || e.raised.value.Capability? || e.raised.value.MemoryCapture?
    case Write(_) => e.raised.value.Store? || e.raised.value.MemoryCapture?
    case Draft => true
    case Lookup(_) => e.raised.value.Store? || e.raised.value.MemoryCapture?
    case Finish(_) => false
    case Step(work) => Survives(work, e.raised.value)
  }

  predicate Survives(work: Work, exn: Exn) {
    match work
    case SearchHistory => exn.RuntimeData? || exn.Capability?
    case SaveMessage => exn.History?
    case FetchMail => true
    case AnalyzeMemory => exn.MemoryCapture?
    case GetPlace => exn.RuntimeData? || exn.Capability? || exn.Value?
    case SaveReply => exn.History?
    case PersistArtifact => exn.Http?
    case PersistProposals => exn.RuntimeData? || exn.Capability? || exn.Intent? || exn.Value?
    case _ => false
  }

  predicate Calm(trace: seq<Entry>) { CalmUpTo(trace, |trace|) }

  predicate CalmUpTo(trace: seq<Entry>, n: nat)
    requires n <= |trace|
  {
    n == 0 || (CalmUpTo(trace, n - 1) && Tolerated(trace[n - 1]))
  }

  lemma {:induction false} CalmMeans(trace: seq<Entry>, n: nat)
    requires n <= |trace|
    ensures CalmUpTo(trace, n) <==> forall i :: 0 <= i < n ==> Tolerated(trace[i])
  {
    if n > 0 { CalmMeans(trace, n - 1); }
  }

  lemma {:induction false} SameCalm(before: seq<Entry>, after: seq<Entry>, n: nat)
    requires before <= after && n <= |before|
    ensures CalmUpTo(after, n) == CalmUpTo(before, n)
  {
    if n > 0 { SameCalm(before, after, n - 1); }
  }

  /** The turn has met its one exception that is not tolerated, with its very last call. */
  ghost predicate Stopped(trace: seq<Entry>) {
    trace != [] && !Tolerated(trace[|trace| - 1]) && CalmUpTo(trace, |trace| - 1)
  }

  ghost predicate EndsAs(trace: seq<Entry>, raised: Option<Exn>) {
    if raised.None? then Calm(trace) else Stopped(trace) && raised == Some(Surfaces(trace[|trace| - 1]))
  }

  /** As `EndsAs`, where a capture error may also have no exception behind it. */
  ghost predicate CapturesAs(trace: seq<Entry>, raised: Option<Exn>) {
    if raised.None? || raised.value.MemoryCapture? then Calm(trace) else EndsAs(trace, raised)
  }

  /** The exception the caller sees: history and model errors are translated, others pass. */
  function Surfaces(e: Entry): Exn
    requires e.raised.Some?
  {
    if e.raised.value.History? && Establishes(e.call) then Http
    else if e.raised.value.Model? && IsConversing(e.call) then Http
    else e.raised.value
  }

  predicate Establishes(call: Call) {
    || (call.Step? && (call.work.CreateConversation? || call.work.BindTurn? || call.work.GetMessages?))
    || call == Mark(Bound)
  }

  predicate IsConversing(call: Call) {
    || (call.Step? && (call.work.ConfigureResearch? || call.work.GetPlace? || call.work.AskLi?))
    || call == Mark(ModelStarted) || call == Mark(ResponseReady)
  }

  lemma OneMoreCall(trace: seq<Entry>, e: Entry)
    requires Calm(trace)
    ensures Tolerated(e) ==> Calm(trace + [e])
    ensures !Tolerated(e) ==> Stopped(trace + [e])
  {
    SameCalm(trace, trace + [e], |trace|);
  }

  // ----- what an answered turn did -----

  /** The work done and the stages recorded, in order. */
  datatype Log = Start | Work(before: Log, work: Work) | Stage(before: Log, stage: Stage)

  function Logged(log: Log, call: Call): Log {
    match call
    case Step(work) => Log.Work(log, work)
    case Mark(stage) => Log.Stage(log, stage)
    case _ => log
  }

  function LogOf(trace: seq<Entry>): Log { LogUpTo(trace, |trace|) }

  function LogUpTo(trace: seq<Entry>, n: nat): Log
    requires n <= |trace|
  {
    if n == 0 then Start else Logged(LogUpTo(trace, n - 1), trace[n - 1].call)
  }

  lemma LogAppend(trace: seq<Entry>, e: Entry)
    ensures LogOf(trace + [e]) == Logged(LogOf(trace), e.call)
  {
    SameLog(trace, trace + [e], |trace|);
  }

  lemma {:induction false} SameLog(before: seq<Entry>, after: seq<Entry>, n: nat)
    requires before <= after && n <= |before|
    ensures LogUpTo(after, n) == LogUpTo(before, n)
  {
    if n > 0 { SameLog(before, after, n - 1); }
  }

  function If(done: bool, log: Log, work: Work): Log { if done then Log.Work(log, work) else log }

  function IfRecorded(recorded: bool, log: Log, stage: Stage): Log {
    if recorded then Log.Stage(log, stage) else log
  }

  /** The conversation is created unless there is one, and bound unless an earlier attempt did. */
  function Binding(log: Log, creates: bool, binds: bool, recorded: bool): Log {
    var created := If(creates, log, CreateConversation);
    var bound := if binds then IfRecorded(recorded, Log.Work(created, BindTurn), Bound) else created;
    Log.Work(bound, GetMessages)
  }

  function Gathering(log: Log, payload: Payload): Log {
    Log.Work(If(payload.recalls, log, SearchHistory), AssembleContext)
  }

  /** The stage is marked only when the message could be saved. */
  function Saving(log: Log, saved: bool, recorded: bool): Log {
    IfRecorded(saved && recorded, Log.Work(log, SaveMessage), MessageSaved)
  }

  function Mailing(log: Log, email: Email, completed: bool, recorded: bool): Log {
    match email
    case NoEmail => log
    case ReadMail => Log.Work(Log.Work(log, FetchMail), DumpOutcome)
    case UnapprovedDraft => Log.Work(log, DumpOutcome)
    case ApprovedDraft => Log.Work(Drafting(log, completed, recorded), DumpOutcome)
  }

  function Drafting(log: Log, completed: bool, recorded: bool): Log {
    IfRecorded(completed && recorded, Announcing(log, recorded), ProviderCompleted)
  }

  function Announcing(log: Log, recorded: bool): Log {
    IfRecorded(recorded, IfRecorded(recorded, log, ActionPrepared), ProviderDispatched)
  }

  function Talking(log: Log, recorded: bool): Log {
    var started := IfRecorded(recorded, Log.Work(Log.Work(log, ConfigureResearch), GetPlace), ModelStarted);
    IfRecorded(recorded, Log.Work(started, AskLi), ResponseReady)
  }

  function Replying(log: Log, payload: Payload, proposes: bool): Log {
    var filed := If(payload.wantsArtifact, Log.Work(log, SaveReply), PersistArtifact);
    Log.Work(If(proposes, filed, PersistProposals), BuildResponse)
  }

  /** What a turn begins with. */
  datatype Setting = Setting(payload: Payload, creates: bool, identified: bool, recorded: bool)

  /** What a turn meets on its way. */
  datatype Course = Course(resumed: nat, saved: bool, completed: bool)

  /** What an earlier attempt did is not repeated: its conversation is bound, its message saved. */
  function Preparing(log: Log, s: Setting, course: Course): Log {
    var bound := Binding(log, s.creates, s.identified && course.resumed < StageOrder(Bound), s.recorded);
    var gathered := Gathering(bound, s.payload);
    var saved :=
      if course.resumed < StageOrder(MessageSaved) then Saving(gathered, course.saved, s.recorded) else gathered;
    Mailing(saved, s.payload.email, course.completed, s.recorded)
  }

  function WholeTurn(log: Log, s: Setting, course: Course, proposes: bool): Log {
    Replying(Talking(Log.Work(Preparing(log, s, course), AnalyzeMemory), s.recorded), s.payload, proposes)
  }

  // ----- why a capture fails -----

  /** Why the candidate could not be applied, seen from the end of the trace. */
  ghost predicate Problem(candidate: Candidate, trace: seq<Entry>, fenced: bool) {
    var changes := candidate.action.ForgetIt? || candidate.action.CorrectExplicit?;
    || (changes && !candidate.hasTarget)
    || (changes && trace != [] && FindsNoTarget(trace[|trace| - 1], candidate))
    || (!changes && !candidate.complete)
    || !fenced
    || (trace != [] && (trace[|trace| - 1].call.Fence? || trace[|trace| - 1].call.Write?)
        && trace[|trace| - 1].raised.Some?)
  }

  predicate LookedUp(trace: seq<Entry>, raised: Option<Exn>, matches: seq<Target>) {
    trace != [] && trace[|trace| - 1] == Entry(Lookup(matches), raised)
  }

  /** Every lookup since but the last found nothing. */
  ghost predicate OnlyEmptyBefore(trace: seq<Entry>, since: nat) {
    forall i :: since <= i < |trace| - 1 ==> trace[i] == Entry(Lookup([]), None)
  }

  predicate FoundNoTarget(trace: seq<Entry>) {
    && trace != [] && trace[|trace| - 1].call.Lookup?
    && (trace[|trace| - 1].raised.Some? || |trace[|trace| - 1].call.matches| != 1)
  }

  /** The lookup failed, found none or several, or found what may not be changed so. */
  predicate FindsNoTarget(e: Entry, candidate: Candidate) {
    && e.call.Lookup?
    && (|| e.raised.Some? || |e.call.matches| != 1
        || !e.call.matches[0].explicitClass || !e.call.matches[0].lowOrPersonal
        || (candidate.action.CorrectExplicit? && !candidate.hasValue))
  }

  /** Why a batch of captures failed: it may not leave a private source, or one candidate could not be applied. */
  ghost predicate BatchProblem(candidates: seq<Candidate>, sourcePrivate: bool, trace: seq<Entry>, fenced: bool) {
    || (sourcePrivate && exists c :: c in candidates && c.action.ProposeForTheo?)
    || exists c :: c in candidates && Problem(c, trace, fenced)
  }

  /** The analysis failed with the last of these calls, or a batch of its candidates had a problem there. */
  ghost predicate CaptureBroke(
    trace: seq<Entry>, at: nat, analysis: seq<Candidate>, sourcePrivate: bool, fenced: bool)
  {
    && at <= |trace|
    && (|| (at > 0 && trace[at - 1] == Entry(Step(AnalyzeMemory), Some(MemoryCapture)))
        || BatchProblem(Filter(analysis, true), sourcePrivate, trace[..at], fenced)
        || BatchProblem(Filter(analysis, false), sourcePrivate, trace[..at], fenced))
  }

  lemma BrokeStays(
    before: seq<Entry>, after: seq<Entry>, at: nat, analysis: seq<Candidate>, sourcePrivate: bool, fenced: bool)
    requires before <= after && CaptureBroke(before, at, analysis, sourcePrivate, fenced)
    ensures CaptureBroke(after, at, analysis, sourcePrivate, fenced)
  {
    assert after[..at] == before[..at];
  }

  ghost predicate AskedAt(trace: seq<Entry>, at: nat) {
    at < |trace| && trace[at] == Entry(Step(AskLi), None)
  }

  // ----- what the caller gets -----

  ghost predicate EndsAnswered(trace: seq<Entry>) {
    trace != [] && trace[|trace| - 1] == Entry(Step(BuildResponse), None)
  }

  /** Why a turn that was not let in is refused: what the claim raised, or how it turned out. */
  predicate RefusedAs(claim: Entry, exn: Exn) {
    && claim.call.Claim?
    && match claim.raised
       case Some(x) => !x.Capability? && exn == (if x.RuntimeData? then Http else x)
       case None =>
         match claim.call.outcome
         case Accepted => !claim.call.wellFormed && exn.Value?
         case Replay => !claim.call.wellFormed && (exn.Value? || exn.Http?)
         case _ => exn.Http?
  }

  /**
   What the caller gets of a turn whose last call before its labels was `last`, and whose label was
   answered with `failure`: runtime data errors of the label are not shown, others win.
   */
  predicate ReplyFits(last: Entry, answered: bool, durable: bool, failure: Option<Exn>, reply: Reply) {
    var hidden := failure.Some? && (failure.value.RuntimeData? || failure.value.Capability?);
    var lost, shown := durable && hidden, durable && failure.Some? && !hidden;
    && (reply == Returned(NowCompleted) <==> answered && durable && failure.None?)
    && (reply == Returned(DurabilityUnavailable) <==> answered && (!durable || lost))
    && (reply.Raised? <==> shown || !answered)
    && (reply.Raised? && shown ==> reply.exn == failure.value)
    && (reply.Raised? && !shown ==> last.raised.Some? && reply.exn == Surfaces(last))
  }

  ghost predicate HasDraft(trace: seq<Entry>) { exists i :: 0 <= i < |trace| && trace[i].call.Draft? }

  predicate IsMark(e: Entry, stage: Stage) { e == Entry(Mark(stage), None) }

  /** A draft is approved and, where stages are recorded, directly preceded by the record of its dispatch. */
  ghost predicate DraftOk(trace: seq<Entry>, i: nat, email: Email, recorded: bool)
    requires i < |trace| && trace[i].call.Draft?
  {
    email.ApprovedDraft? && (recorded ==> i > 0 && IsMark(trace[i - 1], ProviderDispatched))
  }

  ghost predicate DraftsOk(trace: seq<Entry>, email: Email, recorded: bool) {
    forall i :: 0 <= i < |trace| && trace[i].call.Draft? ==> DraftOk(trace, i, email, recorded)
  }

  predicate HasPrepared(trace: seq<Entry>) { Entry(Mark(ActionPrepared), None) in trace }

  /** A write was fenced, or an approved draft prepared: recorded so where stages are recorded. */
  predicate MayHaveBegun(trace: seq<Entry>, email: Email, recorded: bool) {
    HasFence(trace) || (email.ApprovedDraft? && (recorded ==> HasPrepared(trace)))
  }

  lemma BegunStays(before: seq<Entry>, after: seq<Entry>, email: Email, recorded: bool)
    requires before <= after && MayHaveBegun(before, email, recorded)
    ensures MayHaveBegun(after, email, recorded)
  {
    forall e | e in before ensures e in after {
      var i :| 0 <= i < |before| && before[i] == e;
      assert after[i] == e;
    }
  }

  ghost predicate Unfinished(trace: seq<Entry>) {
    forall i :: 0 <= i < |trace| ==> !trace[i].call.Finish?
  }

  /** A write is granted, or a dispatch announced. */
  predicate Begins(e: Entry) { IsFence(e) || IsMark(e, ActionPrepared) }

  /** A call in order is no label, and `marked` if it is an effect or announces one. */
  ghost predicate InOrder(
    trace: seq<Entry>, i: nat, marked: bool, hasTurnId: bool, email: Email, recorded: bool)
    requires i < |trace|
  {
    && !trace[i].call.Finish? && (IsEffect(trace[i]) || Begins(trace[i]) ==> marked)
    && (trace[i].call.Write? ==> WriteOk(trace, i, hasTurnId))
    && (trace[i].call.Draft? ==> DraftOk(trace, i, email, recorded))
  }

  ghost predicate InOrderUpTo(
    trace: seq<Entry>, n: nat, marked: bool, hasTurnId: bool, email: Email, recorded: bool)
    requires n <= |trace|
  {
    n > 0 ==>
      && InOrderUpTo(trace, n - 1, marked, hasTurnId, email, recorded)
      && InOrder(trace, n - 1, marked, hasTurnId, email, recorded)
  }

  /** The state of a turn that has not been labelled yet. */
  ghost predicate Good(trace: seq<Entry>, effectPossible: bool, hasTurnId: bool, email: Email, recorded: bool) {
    && InOrderUpTo(trace, |trace|, effectPossible, hasTurnId, email, recorded)
    && (hasTurnId && effectPossible ==> MayHaveBegun(trace, email, recorded))
  }

  lemma {:induction false} OrderStays(
    before: seq<Entry>, after: seq<Entry>, n: nat, marked: bool, later: bool, hasTurnId: bool, email: Email,
    recorded: bool)
    requires before <= after && n <= |before| && (marked ==> later)
    requires InOrderUpTo(before, n, marked, hasTurnId, email, recorded)
    ensures InOrderUpTo(after, n, later, hasTurnId, email, recorded)
  {
    if n > 0 { OrderStays(before, after, n - 1, marked, later, hasTurnId, email, recorded); }
  }

  lemma {:induction false} OrderMeans(
    trace: seq<Entry>, n: nat, marked: bool, hasTurnId: bool, email: Email, recorded: bool)
    requires n <= |trace| && InOrderUpTo(trace, n, marked, hasTurnId, email, recorded)
    ensures forall i :: 0 <= i < n ==> InOrder(trace, i, marked, hasTurnId, email, recorded)
  {
    if n > 0 { OrderMeans(trace, n - 1, marked, hasTurnId, email, recorded); }
  }

  lemma GoodMeans(trace: seq<Entry>, effectPossible: bool, hasTurnId: bool, email: Email, recorded: bool)
    requires Good(trace, effectPossible, hasTurnId, email, recorded)
    ensures WritesOk(trace, hasTurnId) && DraftsOk(trace, email, recorded) && Unfinished(trace)
    ensures HasEffect(trace) || HasFence(trace) || HasPrepared(trace) ==> effectPossible
  {
    OrderMeans(trace, |trace|, effectPossible, hasTurnId, email, recorded);
    forall i | 0 <= i < |trace|
      ensures !trace[i].call.Finish? && (IsEffect(trace[i]) || Begins(trace[i]) ==> effectPossible)
    {
      assert InOrder(trace, i, effectPossible, hasTurnId, email, recorded);
    }
    forall i | 0 <= i < |trace| && trace[i].call.Write? ensures WriteOk(trace, i, hasTurnId) {
      assert InOrder(trace, i, effectPossible, hasTurnId, email, recorded);
    }
    forall i | 0 <= i < |trace| && trace[i].call.Draft? ensures DraftOk(trace, i, email, recorded) {
      assert InOrder(trace, i, effectPossible, hasTurnId, email, recorded);
    }
  }

  /** The marker may be set where an effect is announced. */
  lemma SetMarker(trace: seq<Entry>, effectPossible: bool, hasTurnId: bool, email: Email, recorded: bool)
    requires Good(trace, effectPossible, hasTurnId, email, recorded)
    requires hasTurnId ==> MayHaveBegun(trace, email, recorded)
    ensures Good(trace, true, hasTurnId, email, recorded)
  {
    OrderStays(trace, trace, |trace|, effectPossible, true, hasTurnId, email, recorded);
  }

  /** Appending a boundary call that is neither an effect nor a label keeps a turn good. */
  lemma AppendNeutral(trace: seq<Entry>, e: Entry, effectPossible: bool, hasTurnId: bool, email: Email, recorded: bool)
    requires Good(trace, effectPossible, hasTurnId, email, recorded)
    requires !IsEffect(e) && !e.call.Finish? && (IsMark(e, ActionPrepared) ==> email.ApprovedDraft?)
    ensures Good(trace + [e], effectPossible || Begins(e), hasTurnId, email, recorded)
    ensures Actions(trace + [e]) == Actions(trace)
  {
    var t, later := trace + [e], effectPossible || Begins(e);
    OrderStays(trace, t, |trace|, effectPossible, later, hasTurnId, email, recorded);
    assert InOrder(t, |trace|, later, hasTurnId, email, recorded);
    if hasTurnId && effectPossible { BegunStays(trace, t, email, recorded); }
    assert t[|trace|] == e;
    ActionsAppend(trace, e);
  }

  /** Appending an effect keeps a turn good when the marker is set and a write is in order. */
  lemma AppendEffect(trace: seq<Entry>, e: Entry, hasTurnId: bool, email: Email, recorded: bool)
    requires Good(trace, true, hasTurnId, email, recorded) && IsEffect(e)
    requires if e.call.Draft? then DraftOk(trace + [e], |trace|, email, recorded)
             else WriteOk(trace + [e], |trace|, hasTurnId)
    ensures Good(trace + [e], true, hasTurnId, email, recorded)
  {
    OrderStays(trace, trace + [e], |trace|, true, true, hasTurnId, email, recorded);
    if hasTurnId { BegunStays(trace, trace + [e], email, recorded); }
  }

  /** The response was built, and nothing but labels was asked for since. */
  ghost predicate AnsweredBefore(trace: seq<Entry>, i: nat)
    requires i <= |trace|
  {
    && i > 0
    && (trace[i - 1] == Entry(Step(BuildResponse), None) || (trace[i - 1].call.Finish? && AnsweredBefore(trace, i - 1)))
  }

  /** A label tells the truth: completed means that the response was built, and nothing else does;
      failed that nothing was dispatched, granted or announced, uncertain that something could have
      begun; and no effect follows a label. */
  ghost predicate LabelsOk(trace: seq<Entry>, email: Email, recorded: bool) {
    forall i :: 0 <= i < |trace| && trace[i].call.Finish? ==>
      && (trace[i].call.verdict.Completed? <==> AnsweredBefore(trace, i))
      && (trace[i].call.verdict.Failed? ==> !HasEffect(trace) && !HasFence(trace) && !HasPrepared(trace))
      && (trace[i].call.verdict.Uncertain? ==> MayHaveBegun(trace, email, recorded))
      && (forall j :: i <= j < |trace| ==> !IsEffect(trace[j]))
  }

  ghost predicate Labels(tail: seq<Entry>, verdict: Label) {
    forall i :: 0 <= i < |tail| ==> tail[i].call == Finish(verdict)
  }

  lemma LabelGoodTurn(trace: seq<Entry>, tail: seq<Entry>, verdict: Label, effectPossible: bool, email: Email,
                      recorded: bool)
    requires Good(trace, effectPossible, true, email, recorded) && Labels(tail, verdict)
    requires verdict.Failed? ==> !effectPossible
    requires verdict.Uncertain? ==> effectPossible
    requires verdict.Completed? <==> EndsAnswered(trace)
    ensures LabelsOk(trace + tail, email, recorded)
    ensures WritesOk(trace + tail, true) && DraftsOk(trace + tail, email, recorded)
  {
    var t := trace + tail;
    GoodMeans(trace, effectPossible, true, email, recorded);
    if effectPossible { BegunStays(trace, t, email, recorded); }
    forall i | 0 <= i < |t| && t[i].call.Draft? ensures DraftOk(t, i, email, recorded) {
      assert DraftOk(trace, i, email, recorded);
    }
    if HasEffect(t) {
      var i :| 0 <= i < |t| && IsEffect(t[i]);
      assert IsEffect(trace[i]);
    }
    forall i | 0 <= i < |t| && t[i].call.Write? ensures WriteOk(t, i, true) {
      assert WriteOk(trace, i, true);
    }
    forall i | |trace| <= i <= |t| ensures AnsweredBefore(t, i) <==> verdict.Completed? {
      LabelsKeepAnswer(trace, tail, verdict, i);
    }
  }

  lemma {:induction false} LabelsKeepAnswer(trace: seq<Entry>, tail: seq<Entry>, verdict: Label, i: nat)
    requires Unfinished(trace) && Labels(tail, verdict) && |trace| <= i <= |trace + tail|
    ensures AnsweredBefore(trace + tail, i) <==> EndsAnswered(trace)
    decreases i
  {
    if |trace| < i {
      LabelsKeepAnswer(trace, tail, verdict, i - 1);
      assert (trace + tail)[i - 1].call == Finish(verdict);
    }
  }

  lemma UnfinishedIsLabelled(
    trace: seq<Entry>, effectPossible: bool, hasTurnId: bool, email: Email, recorded: bool)
    requires Good(trace, effectPossible, hasTurnId, email, recorded)
    ensures LabelsOk(trace, email, recorded) && Unfinished(trace)
    ensures WritesOk(trace, hasTurnId) && DraftsOk(trace, email, recorded)
  {
    GoodMeans(trace, effectPossible, hasTurnId, email, recorded);
  }

  lemma {:induction false} AnswerIsBuilt(trace: seq<Entry>, i: nat)
    requires i <= |trace| && AnsweredBefore(trace, i)
    ensures Entry(Step(BuildResponse), None) in trace[..i]
    decreases i
  {
    if trace[i - 1] == Entry(Step(BuildResponse), None) {
      assert trace[..i][i - 1] == trace[i - 1];
    } else {
      AnswerIsBuilt(trace, i - 1);
      assert trace[..i - 1] <= trace[..i];
    }
  }

  /** Without a built response a turn carries no other labels than failed and uncertain. */
  lemma OnlyAnAnswerCompletes(trace: seq<Entry>, email: Email, recorded: bool)
    requires LabelsOk(trace, email, recorded) && Entry(Step(BuildResponse), None) !in trace
    ensures forall i :: 0 <= i < |trace| && trace[i].call.Finish? ==> !trace[i].call.verdict.Completed?
  {
    forall i | 0 <= i < |trace| && trace[i].call.Finish? ensures !trace[i].call.verdict.Completed? {
      if AnsweredBefore(trace, i) { AnswerIsBuilt(trace, i); }
    }
  }

  lemma DraftStays(before: seq<Entry>, after: seq<Entry>)
    requires before <= after
    ensures HasDraft(before) ==> HasDraft(after)
  {
    if HasDraft(before) {
      var i :| 0 <= i < |before| && before[i].call.Draft?;
      assert after[i].call.Draft?;
    }
  }

  function StageOrder(stage: Stage): nat {
    match stage
    case Bound => 1
    case MessageSaved => 2
    case ActionPrepared => 3
    case ProviderDispatched => 4
    case ProviderCompleted => 5
    case ModelStarted => 6
    case ResponseReady => 7
  }

  function Filter(candidates: seq<Candidate>, change: bool): (r: seq<Candidate>)
    ensures forall c :: c in r ==> (c.action.CorrectExplicit? || c.action.ForgetIt?) == change
  {
    if candidates == [] then []
    else
      var c := candidates[0];
      (if (c.action.CorrectExplicit? || c.action.ForgetIt?) == change then [c] else [])
      + Filter(candidates[1..], change)
  }

  class Turn {
    const payload: Payload
    var trace: seq<Entry>
    // the `progress` record
    var durable: bool
    var hasAttemptToken: bool
    var resumedStage: nat
    var effectPossible: bool
    // a claim may bring the conversation of an earlier attempt
    var hasConversation: bool

    /** Stages are recorded durably exactly under an accepted claim with an attempt token. */
    predicate RecordsStages() reads this { durable && payload.hasTurnId && hasAttemptToken }

    /** A memory write can be fenced, or needs no fence. */
    predicate CanFence() reads this { payload.hasTurnId ==> durable && hasAttemptToken }

    ghost predicate Open() reads this {
      Good(trace, effectPossible, payload.hasTurnId, payload.email, RecordsStages())
    }

    /** As `Open`, for a call that has just recorded that an effect may follow. */
    ghost predicate OpenAfter(e: Entry) reads this {
      Good(trace, effectPossible || Begins(e), payload.hasTurnId, payload.email, RecordsStages())
    }

    constructor (payload: Payload)
      ensures this.payload == payload && hasConversation == payload.hasConversation
      ensures trace == [] && !durable && resumedStage == 0 && !effectPossible && Open()
    {
      this.payload, hasConversation := payload, payload.hasConversation;
      trace, durable, hasAttemptToken, resumedStage, effectPossible := [], false, false, 0, false;
    }

    /** A boundary call; whether it raises, and what, is not ours to choose. */
    method Boundary(call: Call) returns (raised: Option<Exn>)
      requires Open() && Calm(trace) && !call.Write? && !call.Draft? && !call.Finish?
      requires call == Mark(ActionPrepared) ==> payload.email.ApprovedDraft?
      modifies this`trace
      ensures OpenAfter(Entry(call, raised)) && trace == old(trace) + [Entry(call, raised)]
      ensures Actions(trace) == old(Actions(trace)) && LogOf(trace) == Logged(old(LogOf(trace)), call)
      ensures if Tolerated(Entry(call, raised)) then Calm(trace) else Stopped(trace)
    {
      raised := *;
      var e := Entry(call, raised);
      AppendNeutral(trace, e, effectPossible, payload.hasTurnId, payload.email, RecordsStages());
      LogAppend(trace, e);
      OneMoreCall(trace, e);
      trace := trace + [e];
    }

    /** A piece of work. */
    method Do(work: Work) returns (raised: Option<Exn>)
      requires Open() && Calm(trace)
      modifies this`trace
      ensures Open() && trace == old(trace) + [Entry(Step(work), raised)]
      ensures Actions(trace) == old(Actions(trace)) && LogOf(trace) == Log.Work(old(LogOf(trace)), work)
      ensures if Tolerated(Entry(Step(work), raised)) then Calm(trace) else Stopped(trace)
    {
      raised := Boundary(Step(work));
    }

    method MarkStage(stage: Stage) returns (raised: Option<Exn>)
      requires Open() && Calm(trace) && (stage.ActionPrepared? ==> payload.email.ApprovedDraft?)
      modifies this`trace, this`resumedStage
      ensures OpenAfter(Entry(Mark(stage), raised)) && old(trace) <= trace
      ensures RecordsStages() ==> trace == old(trace) + [Entry(Mark(stage), raised)]
      ensures !RecordsStages() ==> trace == old(trace)
      ensures raised.Some? ==> RecordsStages() && resumedStage == old(resumedStage)
      ensures raised.None? ==> resumedStage == StageOrder(stage)
      ensures Actions(trace) == old(Actions(trace))
      ensures LogOf(trace) == IfRecorded(RecordsStages(), old(LogOf(trace)), stage)
      ensures if Tolerated(Entry(Mark(stage), raised)) then Calm(trace) else Stopped(trace)
    {
      if durable && payload.hasTurnId && hasAttemptToken {
        raised := Boundary(Mark(stage));
        if raised.Some? { return; }
      } else if stage.ActionPrepared? {
        SetMarker(trace, effectPossible, payload.hasTurnId, payload.email, RecordsStages());
      }
      resumedStage := StageOrder(stage);
      raised := None;
    }

    // ----- memory capture -----

    /** The durable fence that opens the way for one memory write. */
    method BeforeMemoryWrite() returns (raised: Option<Exn>)
      requires Open() && Calm(trace)
      modifies this`trace, this`effectPossible
      ensures Open() && old(trace) <= trace
      ensures Actions(trace) == old(Actions(trace)) && LogOf(trace) == old(LogOf(trace))
      ensures raised.None? ==> effectPossible
      ensures raised.None? && payload.hasTurnId ==> trace == old(trace) + [Entry(Fence, None)]
      ensures raised.None? && !payload.hasTurnId ==> trace == old(trace)
      ensures raised.Some? ==>
                !CanFence() || (trace != [] && trace[|trace| - 1].call.Fence? && trace[|trace| - 1].raised.Some?)
      ensures raised.Some? ==> effectPossible == old(effectPossible)
      ensures !CanFence() ==> raised == Some(MemoryCapture) && trace == old(trace)
      ensures CapturesAs(trace, raised)
    {
      if payload.hasTurnId {
        if !durable || !hasAttemptToken { return Some(MemoryCapture); }
        raised := Boundary(Fence);
        if raised.Some? {
          return Some(if raised.value.IsRuntimeData() then MemoryCapture else raised.value);
        }
        assert IsFence(trace[|trace| - 1]);
      } else {
        SetMarker(trace, effectPossible, payload.hasTurnId, payload.email, RecordsStages());
      }
      effectPossible := true;
      raised := None;
    }

    /** The write behind the fence; a store error is reported as a capture error. */
    method WriteMemory(effect: Effect) returns (raised: Option<Exn>)
      requires Open() && Calm(trace) && effectPossible
      requires payload.hasTurnId ==> trace != [] && IsFence(trace[|trace| - 1])
      requires effect.Forget? || effect.Correct? ==>
        Resolved(trace + [Entry(Write(effect), None)], |trace|, effect.target)
      modifies this`trace
      ensures Open() && old(trace) <= trace
      ensures Actions(trace) == old(Actions(trace)) + [ActionOf(effect)] && LogOf(trace) == old(LogOf(trace))
      ensures raised.Some? ==> trace != [] && trace[|trace| - 1].call.Write? && trace[|trace| - 1].raised.Some?
      ensures CapturesAs(trace, raised)
    {
      raised := *;
      var e := Entry(Write(effect), raised);
      ActionsAppend(trace, e);
      LogAppend(trace, e);
      OneMoreCall(trace, e);
      AppendEffect(trace, e, payload.hasTurnId, payload.email, RecordsStages());
      trace := trace + [e];
      if raised == Some(Store) { raised := Some(MemoryCapture); }
    }

    /** Exactly one match of the first query that matches at all, or an error. */
    method ResolveMemoryTarget(candidate: Candidate) returns (raised: Option<Exn>, target: Target)
      requires Open() && Calm(trace)
      modifies this`trace
      ensures Open() && old(trace) <= trace
      ensures Actions(trace) == old(Actions(trace)) && LogOf(trace) == old(LogOf(trace))
      ensures raised.None? ==> candidate.hasTarget && LookedUp(trace, None, [target])
      ensures raised.Some? && candidate.hasTarget ==> FoundNoTarget(trace)
      ensures !candidate.hasTarget ==> trace == old(trace)
      ensures OnlyEmptyBefore(trace, |old(trace)|)
      ensures |trace| - |old(trace)| <= (if candidate.hasDomain then 4 else 2)
      ensures raised.Some? && candidate.hasTarget && LookedUp(trace, None, []) ==>
                |trace| - |old(trace)| >= (if candidate.hasDomain then 2 else 1)
      ensures CapturesAs(trace, raised)
    {
      target := Target(false, false);
      if !candidate.hasTarget { return Some(MemoryCapture), target; }
      var filters := if candidate.hasDomain then 2 else 1;
      var f := 0;
      while f < filters
        invariant Open() && Calm(trace) && old(trace) <= trace
        invariant Actions(trace) == old(Actions(trace)) && LogOf(trace) == old(LogOf(trace))
        invariant 0 <= f <= filters && (f > 0 ==> LookedUp(trace, None, []))
        invariant f <= |trace| - |old(trace)| <= 2 * f && OnlyEmptyBefore(trace, |old(trace)|)
      {
        var matches;
        raised, matches := Query();
        if raised.Some? { return raised, target; }
        if |matches| == 1 {
          assert matches == [matches[0]];
          return None, matches[0];
        }
        if |matches| > 1 { return Some(MemoryCapture), target; }
        f := f + 1;
      }
      return Some(MemoryCapture), target;
    }

    /** One or two queries with a filter; a store error is reported as a capture error. */
    method Query() returns (raised: Option<Exn>, matches: seq<Target>)
      requires Open() && Calm(trace)
      modifies this`trace
      ensures Open() && old(trace) <= trace
      ensures Actions(trace) == old(Actions(trace)) && LogOf(trace) == old(LogOf(trace))
      ensures raised.None? ==> LookedUp(trace, None, matches)
      ensures raised.Some? ==> FoundNoTarget(trace) && trace[|trace| - 1].raised.Some?
      ensures 1 <= |trace| - |old(trace)| <= 2 && OnlyEmptyBefore(trace, |old(trace)|)
      ensures CapturesAs(trace, raised)
    {
      var queries: nat :| 1 <= queries <= 2;
      var q := 0;
      matches := [];
      while q < queries && |matches| == 0
        invariant 0 <= q && Open() && Calm(trace) && old(trace) <= trace
        invariant Actions(trace) == old(Actions(trace)) && LogOf(trace) == old(LogOf(trace))
        invariant if q > 0 then LookedUp(trace, None, matches) else matches == []
        invariant q <= queries && |trace| - |old(trace)| == q && OnlyEmptyBefore(trace, |old(trace)|)
        decreases queries - q
      {
        matches := *;
        raised := Boundary(Lookup(matches));
        if raised.Some? {
          return Some(if raised.value.Store? then MemoryCapture else raised.value), matches;
        }
        q := q + 1;
      }
      raised := None;
    }

    /** One correction or forgetting: resolve, check, fence, write. */
    method ApplyChange(candidate: Candidate) returns (raised: Option<Exn>)
      requires Open() && Calm(trace) && (candidate.action.ForgetIt? || candidate.action.CorrectExplicit?)
      modifies this`trace, this`effectPossible
      ensures Open() && old(trace) <= trace && LogOf(trace) == old(LogOf(trace))
      ensures raised.None? ==> Actions(trace) == old(Actions(trace)) + [candidate.action]
      ensures Actions(trace) == old(Actions(trace)) + [candidate.action]
        || (raised.Some? && Actions(trace) == old(Actions(trace)))
      ensures raised.Some? ==> Problem(candidate, trace, CanFence())
      ensures CapturesAs(trace, raised)
    {
      var target;
      raised, target := ResolveMemoryTarget(candidate);
      if raised.Some? { return; }
      if !target.explicitClass || !target.lowOrPersonal { return Some(MemoryCapture); }
      if !candidate.action.ForgetIt? && !candidate.hasValue { return Some(MemoryCapture); }
      raised := BeforeMemoryWrite();
      if raised.Some? { return; }
      raised := WriteMemory(if candidate.action.ForgetIt? then Forget(target) else Correct(target));
    }

    /** A direct store or a proposal for Theo: fence, write. */
    method ApplyNew(candidate: Candidate) returns (raised: Option<Exn>)
      requires Open() && Calm(trace) && (candidate.action.StoreExplicit? || candidate.action.ProposeForTheo?)
      modifies this`trace, this`effectPossible
      ensures Open() && old(trace) <= trace && LogOf(trace) == old(LogOf(trace))
      ensures raised.None? ==> Actions(trace) == old(Actions(trace)) + [candidate.action]
      ensures Actions(trace) == old(Actions(trace)) + [candidate.action]
        || (raised.Some? && Actions(trace) == old(Actions(trace)))
      ensures raised.Some? ==> Problem(candidate, trace, CanFence())
      ensures CapturesAs(trace, raised)
    {
      if !candidate.complete { return Some(MemoryCapture); }
      raised := BeforeMemoryWrite();
      if raised.Some? { return; }
      raised := WriteMemory(if candidate.action.ProposeForTheo? then Propose else StoreNew);
    }

    method ApplyOne(candidate: Candidate) returns (raised: Option<Exn>)
      requires Open() && Calm(trace)
      modifies this`trace, this`effectPossible
      ensures Open() && old(trace) <= trace && LogOf(trace) == old(LogOf(trace))
      ensures
        Actions(trace) == old(Actions(trace)) + (if candidate.action.Ignore? then [] else [candidate.action])
        || (raised.Some? && Actions(trace) == old(Actions(trace)))
      ensures raised.Some? ==> Problem(candidate, trace, CanFence())
      ensures CapturesAs(trace, raised)
    {
      match candidate.action
      case Ignore => raised := None;
      case CorrectExplicit => raised := ApplyChange(candidate);
      case ForgetIt => raised := ApplyChange(candidate);
      case StoreExplicit => raised := ApplyNew(candidate);
      case ProposeForTheo => raised := ApplyNew(candidate);
    }

    /**
     Candidates are applied in order until one raises, and one only raises for a reason; on success
     each asked-for write was dispatched, once. Private sources never reach Theo: such a batch is
     refused before any call.
     */
    method ApplyMemoryCapture(candidates: seq<Candidate>, sourcePrivate: bool) returns (raised: Option<Exn>)
      requires Open() && Calm(trace)
      modifies this`trace, this`effectPossible
      ensures Open() && old(trace) <= trace && LogOf(trace) == old(LogOf(trace))
      ensures raised.None? ==> Actions(trace) == old(Actions(trace)) + Wanted(candidates)
      ensures Actions(trace) <= old(Actions(trace)) + Wanted(candidates)
      ensures sourcePrivate && (exists c :: c in candidates && c.action.ProposeForTheo?) ==>
        raised == Some(MemoryCapture) && trace == old(trace) && effectPossible == old(effectPossible)
      ensures raised.Some? ==> BatchProblem(candidates, sourcePrivate, trace, CanFence())
      ensures CapturesAs(trace, raised)
    {
      if sourcePrivate && exists c :: c in candidates && c.action.ProposeForTheo? {
        return Some(MemoryCapture);
      }
      var k := 0;
      assert candidates[..0] == [];
      while k < |candidates|
        invariant 0 <= k <= |candidates| && Open() && Calm(trace) && old(trace) <= trace
        invariant Actions(trace) == old(Actions(trace)) + Wanted(candidates[..k]) && LogOf(trace) == old(LogOf(trace))
      {
        raised := ApplyOne(candidates[k]);
        WantedNext(old(Actions(trace)), candidates, k);
        WantedFits(old(Actions(trace)), candidates, k);
        WantedFits(old(Actions(trace)), candidates, k + 1);
        if raised.Some? {
          assert candidates[k] in candidates;
          return;
        }
        k := k + 1;
      }
      assert candidates[..k] == candidates;
      raised := None;
    }

    // ----- the turn itself -----

    method BindConversation(resumed: nat) returns (raised: Option<Exn>)
      requires Open() && Calm(trace)
      modifies this`trace, this`resumedStage
      ensures Open() && old(trace) <= trace
      ensures Actions(trace) == old(Actions(trace))
      ensures raised.None? ==>
                var binds := durable && payload.hasTurnId && resumed < StageOrder(Bound);
                LogOf(trace) == Binding(old(LogOf(trace)), !hasConversation, binds, RecordsStages())
      ensures EndsAs(trace, raised)
    {
      if !hasConversation {
        raised := Do(CreateConversation);
        if raised.Some? { return Some(AsHistory(raised.value)); }
      }
      if durable && payload.hasTurnId && resumed < StageOrder(Bound) {
        raised := BindClaim();
        if raised.Some? { return; }
      }
      raised := Do(GetMessages);
      if raised.Some? { return Some(AsHistory(raised.value)); }
    }

    method BindClaim() returns (raised: Option<Exn>)
      requires Open() && Calm(trace)
      modifies this`trace, this`resumedStage
      ensures Open() && old(trace) <= trace
      ensures Actions(trace) == old(Actions(trace))
      ensures raised.None? ==>
                LogOf(trace) == IfRecorded(RecordsStages(), Log.Work(old(LogOf(trace)), BindTurn), Bound)
      ensures EndsAs(trace, raised)
    {
      raised := Do(BindTurn);
      if raised.Some? { return Some(AsHistory(raised.value)); }
      raised := MarkStage(Bound);
      if raised.Some? { return Some(AsHistory(raised.value)); }
    }

    /** `except ConversationHistoryError` around the establishing calls. */
    static function AsHistory(exn: Exn): Exn { if exn.History? then Http else exn }

    /** `except (ClaudeError, LiRuntimeError)` around the conversation. */
    static function AsModel(exn: Exn): Exn { if exn.Model? then Http else exn }

    method SaveUserMessage() returns (raised: Option<Exn>, ghost saved: bool)
      requires Open() && Calm(trace)
      modifies this`trace, this`resumedStage
      ensures Open() && old(trace) <= trace
      ensures Actions(trace) == old(Actions(trace))
      ensures |old(trace)| < |trace| && trace[|old(trace)|].call == Step(SaveMessage)
      ensures saved <==> trace[|old(trace)|].raised.None?
      ensures raised.None? ==> LogOf(trace) == Saving(old(LogOf(trace)), saved, RecordsStages())
      ensures EndsAs(trace, raised)
    {
      raised := Do(SaveMessage);
      saved := raised.None?;
      if raised.None? { raised := MarkStage(MessageSaved); }
      if raised == Some(History) { raised := None; }
    }

    /** The marker is set, and the dispatch recorded, before an approved draft leaves. */
    method DispatchDraft() returns (raised: Option<Exn>, ghost completed: bool)
      requires Open() && Calm(trace) && payload.email.ApprovedDraft?
      modifies this`trace, this`resumedStage, this`effectPossible
      ensures Open() && old(trace) <= trace
      ensures Actions(trace) == old(Actions(trace))
      ensures raised.None? ==> HasDraft(trace)
      ensures raised.None? ==> LogOf(trace) == Drafting(old(LogOf(trace)), completed, RecordsStages())
      ensures EndsAs(trace, raised)
    {
      completed := false;
      raised := AnnounceDraft();
      if raised.Some? { return; }
      var done := SendDraft();
      completed := done;
      ghost var drafted := trace;
      if done {
        raised := MarkStage(ProviderCompleted);
      }
      DraftStays(drafted, trace);
    }

    method AnnounceDraft() returns (raised: Option<Exn>)
      requires Open() && Calm(trace) && payload.email.ApprovedDraft?
      modifies this`trace, this`resumedStage, this`effectPossible
      ensures Open() && old(trace) <= trace
      ensures Actions(trace) == old(Actions(trace))
      ensures raised.None? ==> effectPossible
      ensures raised.None? && RecordsStages() ==> trace != [] && IsMark(trace[|trace| - 1], ProviderDispatched)
      ensures raised.None? ==> LogOf(trace) == Announcing(old(LogOf(trace)), RecordsStages())
      ensures EndsAs(trace, raised)
    {
      raised := PrepareDraft();
      if raised.Some? { return; }
      raised := MarkStage(ProviderDispatched);
    }

    /** The marker is set as soon as the preparation is recorded. */
    method PrepareDraft() returns (raised: Option<Exn>)
      requires Open() && Calm(trace) && payload.email.ApprovedDraft?
      modifies this`trace, this`resumedStage, this`effectPossible
      ensures Open() && old(trace) <= trace
      ensures Actions(trace) == old(Actions(trace))
      ensures LogOf(trace) == IfRecorded(RecordsStages(), old(LogOf(trace)), ActionPrepared)
      ensures raised.None? ==> effectPossible
      ensures EndsAs(trace, raised)
    {
      raised := MarkStage(ActionPrepared);
      if raised.Some? { return; }
      assert RecordsStages() ==> IsMark(trace[|trace| - 1], ActionPrepared);
      effectPossible := true;
    }

    /** The executor turns any provider exception into a failed outcome. */
    method SendDraft() returns (completed: bool)
      requires Open() && Calm(trace) && effectPossible && payload.email.ApprovedDraft?
      requires RecordsStages() ==> trace != [] && IsMark(trace[|trace| - 1], ProviderDispatched)
      modifies this`trace
      ensures Open() && Calm(trace) && old(trace) <= trace && HasDraft(trace)
      ensures Actions(trace) == old(Actions(trace)) && LogOf(trace) == old(LogOf(trace))
      ensures completed ==> trace[|trace| - 1] == Entry(Draft, None)
    {
      var failure: Option<Exn> := *;
      var e := Entry(Draft, failure);
      AppendEffect(trace, e, payload.hasTurnId, payload.email, RecordsStages());
      ActionsAppend(trace, e);
      LogAppend(trace, e);
      OneMoreCall(trace, e);
      trace := trace + [e];
      assert trace[|trace| - 1].call.Draft?;
      completed := *;
      if failure.Some? { completed := false; }
    }

    method ExecuteEmail() returns (raised: Option<Exn>, ghost completed: bool)
      requires Open() && Calm(trace)
      modifies this`trace, this`resumedStage, this`effectPossible
      ensures Open() && old(trace) <= trace
      ensures Actions(trace) == old(Actions(trace))
      ensures raised.None? && payload.email.ApprovedDraft? ==> HasDraft(trace)
      ensures raised.None? ==>
                LogOf(trace) == Mailing(old(LogOf(trace)), payload.email, completed, RecordsStages())
      ensures EndsAs(trace, raised)
    {
      completed := false;
      if payload.email.NoEmail? { return None, completed; }
      if payload.email.ReadMail? {
        raised := Do(FetchMail);  // its exceptions become a failed outcome
      }
      if payload.email.ApprovedDraft? {
        raised, completed := DispatchDraft();
        if raised.Some? { return; }
      }
      ghost var before := trace;
      raised := Do(DumpOutcome);
      DraftStays(before, trace);
    }

    /** Li is asked between the records that the model started and that its response is ready. */
    method TalkToLi() returns (raised: Option<Exn>, proposes: bool, ghost asked: nat)
      requires Open() && Calm(trace)
      modifies this`trace, this`resumedStage
      ensures Open() && old(trace) <= trace
      ensures Actions(trace) == old(Actions(trace))
      ensures raised.None? ==> AskedAt(trace, asked) && Actions(trace[..asked]) == old(Actions(trace))
      ensures raised.None? ==> LogOf(trace) == Talking(old(LogOf(trace)), RecordsStages())
      ensures EndsAs(trace, raised)
    {
      asked, proposes := 0, false;
      raised := Locate();
      if raised.Some? { return; }
      raised := MarkStage(ModelStarted);
      if raised.Some? { return Some(AsModel(raised.value)), proposes, asked; }
      asked := |trace|;
      ghost var before := trace;
      raised, proposes := Ask();
      assert trace[..asked] == before;
    }

    /** The provider and the place; settings that cannot be read are left out. */
    method Locate() returns (raised: Option<Exn>)
      requires Open() && Calm(trace)
      modifies this`trace
      ensures Open() && old(trace) <= trace
      ensures Actions(trace) == old(Actions(trace))
      ensures raised.None? ==>
                LogOf(trace) == Log.Work(Log.Work(old(LogOf(trace)), ConfigureResearch), GetPlace)
      ensures EndsAs(trace, raised)
    {
      raised := Do(ConfigureResearch);
      if raised.Some? { return Some(AsModel(raised.value)); }
      raised := Do(GetPlace);
      if raised.Some? {
        raised :=
          if raised.value.IsRuntimeData() || raised.value.Value? then None else Some(AsModel(raised.value));
      }
    }

    /** Whether the answer proposes actions is not ours to choose. */
    method Ask() returns (raised: Option<Exn>, proposes: bool)
      requires Open() && Calm(trace)
      modifies this`trace, this`resumedStage
      ensures Open() && old(trace) < trace && trace[|old(trace)|].call == Step(AskLi)
      ensures Actions(trace) == old(Actions(trace))
      ensures raised.None? ==> trace[|old(trace)|].raised.None?
      ensures raised.None? ==>
                LogOf(trace) == IfRecorded(RecordsStages(), Log.Work(old(LogOf(trace)), AskLi), ResponseReady)
      ensures EndsAs(trace, raised)
    {
      proposes := *;
      raised := Do(AskLi);
      if raised.Some? { return Some(AsModel(raised.value)), proposes; }
      raised := MarkStage(ResponseReady);
      if raised.Some? { return Some(AsModel(raised.value)), proposes; }
    }

    /** Up to the analysis: conversation, context, the user's message, the email action. */
    method Prepare() returns (raised: Option<Exn>, ghost course: Course)
      requires Open() && Calm(trace)
      modifies this`trace, this`resumedStage, this`effectPossible
      ensures Open() && old(trace) <= trace
      ensures Actions(trace) == old(Actions(trace)) && course.resumed == old(resumedStage)
      ensures raised.None? && payload.email.ApprovedDraft? ==> HasDraft(trace)
      ensures raised.None? ==> LogOf(trace) == Preparing(old(LogOf(trace)), Situation(), course)
      ensures EndsAs(trace, raised)
    {
      var resumed := resumedStage;  // read once, before any stage is marked
      ghost var saved, completed;
      course, saved, completed := Course(resumed, false, false), false, false;
      raised := BindConversation(resumed);
      if raised.Some? { return; }
      raised := PrepareContext();
      if raised.Some? { return; }
      if resumed < StageOrder(MessageSaved) {
        raised, saved := SaveUserMessage();
        if raised.Some? { return; }
      }
      raised, completed := ExecuteEmail();
      course := Course(resumed, saved, completed);
    }

    ghost function Situation(): Setting reads this {
      Setting(payload, !hasConversation, durable && payload.hasTurnId, RecordsStages())
    }

    method PrepareContext() returns (raised: Option<Exn>)
      requires Open() && Calm(trace)
      modifies this`trace
      ensures Open() && old(trace) <= trace
      ensures Actions(trace) == old(Actions(trace))
      ensures raised.None? ==> LogOf(trace) == Gathering(old(LogOf(trace)), payload)
      ensures EndsAs(trace, raised)
    {
      if payload.recalls {
        raised := Do(SearchHistory);
        if raised.Some? && !raised.value.IsRuntimeData() { return; }
      }
      raised := Do(AssembleContext);
    }

    /** A batch of captures; a capture error is remembered, anything else ends the turn. */
    method Capture(candidates: seq<Candidate>, sourcePrivate: bool) returns (raised: Option<Exn>, failed: bool)
      requires Open() && Calm(trace)
      modifies this`trace, this`effectPossible
      ensures Open() && old(trace) <= trace && LogOf(trace) == old(LogOf(trace))
      ensures raised.None? && !failed ==> Actions(trace) == old(Actions(trace)) + Wanted(candidates)
      ensures sourcePrivate && ProposeForTheo in Actions(trace) ==> ProposeForTheo in old(Actions(trace))
      ensures failed ==> raised.None? && BatchProblem(candidates, sourcePrivate, trace, CanFence())
      ensures EndsAs(trace, raised)
    {
      if candidates == [] { return None, false; }
      raised := ApplyMemoryCapture(candidates, sourcePrivate);
      if sourcePrivate && ProposeForTheo in Actions(trace) {
        assert ProposeForTheo in old(Actions(trace)) + Wanted(candidates);
      }
      failed := raised == Some(MemoryCapture);
      if failed { raised := None; }
    }

    /**
     `_execute_li_chat`: changes of existing memories are written before Li answers, all other
     captures after; without a capture error each asked-for write was dispatched, once, and a capture
     error has its reason. The turn goes through its work in order and answers, unless some call raises
     what is not tolerated; then it stops there.
     */
    method Execute(sourcePrivate: bool)
      returns (raised: Option<Exn>, analysis: seq<Candidate>, captureError: bool, proposes: bool,
               ghost asked: nat, ghost broke: nat, ghost course: Course)
      requires Open() && Calm(trace)
      modifies this`trace, this`resumedStage, this`effectPossible
      ensures Open() && old(trace) <= trace && course.resumed == old(resumedStage)
      ensures sourcePrivate && ProposeForTheo in Actions(trace) ==> ProposeForTheo in old(Actions(trace))
      ensures raised.None? ==> AskedAt(trace, asked)
      ensures raised.None? && !captureError ==>
        && Actions(trace[..asked]) == old(Actions(trace)) + Wanted(Filter(analysis, true))
        && Actions(trace) == Actions(trace[..asked]) + Wanted(Filter(analysis, false))
      ensures raised.None? && captureError ==> CaptureBroke(trace, broke, analysis, sourcePrivate, CanFence())
      ensures raised.None? && payload.email.ApprovedDraft? ==> HasDraft(trace)
      ensures raised.None? ==> EndsAnswered(trace)
      ensures raised.None? ==> LogOf(trace) == WholeTurn(old(LogOf(trace)), Situation(), course, proposes)
      ensures EndsAs(trace, raised)
    {
      analysis, captureError, asked, broke, proposes := *, false, 0, 0, false;
      raised, captureError, broke, course := Understand(analysis, sourcePrivate);
      if raised.Some? { return; }
      ghost var understood := trace;
      raised, captureError, proposes, asked, broke := Answer(analysis, captureError, sourcePrivate, broke);
      DraftStays(understood, trace);
    }

    /** Everything before Li is asked. */
    method Understand(analysis: seq<Candidate>, sourcePrivate: bool)
      returns (raised: Option<Exn>, captureError: bool, ghost broke: nat, ghost course: Course)
      requires Open() && Calm(trace)
      modifies this`trace, this`resumedStage, this`effectPossible
      ensures Open() && old(trace) <= trace && course.resumed == old(resumedStage)
      ensures sourcePrivate && ProposeForTheo in Actions(trace) ==> ProposeForTheo in old(Actions(trace))
      ensures raised.None? && !captureError ==>
                Actions(trace) == old(Actions(trace)) + Wanted(Filter(analysis, true))
      ensures raised.None? && captureError ==> CaptureBroke(trace, broke, analysis, sourcePrivate, CanFence())
      ensures raised.None? && payload.email.ApprovedDraft? ==> HasDraft(trace)
      ensures raised.None? ==>
                LogOf(trace) == Log.Work(Preparing(old(LogOf(trace)), Situation(), course), AnalyzeMemory)
      ensures EndsAs(trace, raised)
    {
      captureError, broke := false, 0;
      raised, course := Prepare();
      if raised.Some? { return; }
      ghost var prepared := trace;
      raised, captureError, broke := ApplyChanges(analysis, sourcePrivate);
      DraftStays(prepared, trace);
    }

    /** Li's answer, and what is captured and kept after it. */
    method Answer(analysis: seq<Candidate>, failedBefore: bool, sourcePrivate: bool, ghost brokeBefore: nat)
      returns (raised: Option<Exn>, captureError: bool, proposes: bool, ghost asked: nat, ghost broke: nat)
      requires Open() && Calm(trace)
      requires failedBefore ==> CaptureBroke(trace, brokeBefore, analysis, sourcePrivate, CanFence())
      modifies this`trace, this`resumedStage, this`effectPossible
      ensures Open() && old(trace) <= trace
      ensures failedBefore && raised.None? ==> captureError
      ensures sourcePrivate && ProposeForTheo in Actions(trace) ==> ProposeForTheo in old(Actions(trace))
      ensures raised.None? ==> AskedAt(trace, asked) && Actions(trace[..asked]) == old(Actions(trace))
      ensures raised.None? && !captureError ==>
        Actions(trace) == old(Actions(trace)) + Wanted(Filter(analysis, false))
      ensures raised.None? && captureError ==> CaptureBroke(trace, broke, analysis, sourcePrivate, CanFence())
      ensures raised.None? ==>
        LogOf(trace) == Replying(Talking(old(LogOf(trace)), RecordsStages()), payload, proposes)
      ensures raised.None? ==> EndsAnswered(trace)
      ensures EndsAs(trace, raised)
    {
      captureError, broke := failedBefore, brokeBefore;
      raised, proposes, asked := TalkToLi();
      if raised.Some? { return; }
      ghost var spoken := trace;
      if failedBefore { BrokeStays(old(trace), spoken, broke, analysis, sourcePrivate, CanFence()); }
      raised, captureError, broke := FinishAnswer(analysis, failedBefore, sourcePrivate, proposes, broke);
      assert trace[..asked] == spoken[..asked];
    }

    /** The analysis, and the changes of existing memories it asks for; a capture error is remembered. */
    method ApplyChanges(analysis: seq<Candidate>, sourcePrivate: bool)
      returns (raised: Option<Exn>, captureError: bool, ghost broke: nat)
      requires Open() && Calm(trace)
      modifies this`trace, this`effectPossible
      ensures Open() && old(trace) <= trace
      ensures raised.None? ==> LogOf(trace) == Log.Work(old(LogOf(trace)), AnalyzeMemory)
      ensures sourcePrivate && ProposeForTheo in Actions(trace) ==> ProposeForTheo in old(Actions(trace))
      ensures raised.None? && !captureError ==>
                Actions(trace) == old(Actions(trace)) + Wanted(Filter(analysis, true))
      ensures raised.None? && captureError ==> CaptureBroke(trace, broke, analysis, sourcePrivate, CanFence())
      ensures EndsAs(trace, raised)
    {
      captureError, broke := false, 0;
      raised := Do(AnalyzeMemory);
      if raised.Some? {
        captureError, broke := raised.value.MemoryCapture?, |trace|;
        if captureError { raised := None; }
        return;
      }
      raised, captureError := Capture(Filter(analysis, true), sourcePrivate);
      broke := |trace|;
      assert trace[..broke] == trace;
    }

    method FinishAnswer(
      analysis: seq<Candidate>, failedBefore: bool, sourcePrivate: bool, proposes: bool, ghost brokeBefore: nat)
      returns (raised: Option<Exn>, captureError: bool, ghost broke: nat)
      requires Open() && Calm(trace)
      requires failedBefore ==> CaptureBroke(trace, brokeBefore, analysis, sourcePrivate, CanFence())
      modifies this`trace, this`effectPossible
      ensures Open() && old(trace) <= trace
      ensures failedBefore ==> captureError
      ensures sourcePrivate && ProposeForTheo in Actions(trace) ==> ProposeForTheo in old(Actions(trace))
      ensures raised.None? && !captureError ==>
        Actions(trace) == old(Actions(trace)) + Wanted(Filter(analysis, false))
      ensures raised.None? && captureError ==> CaptureBroke(trace, broke, analysis, sourcePrivate, CanFence())
      ensures raised.None? ==> LogOf(trace) == Replying(old(LogOf(trace)), payload, proposes)
      ensures raised.None? ==> EndsAnswered(trace)
      ensures EndsAs(trace, raised)
    {
      captureError, broke := failedBefore, brokeBefore;
      if !captureError {
        raised, captureError := Capture(Filter(analysis, false), sourcePrivate);
        if raised.Some? { return; }
        broke := |trace|;
        assert trace[..broke] == trace;
      }
      ghost var captured, fenced := trace, CanFence();
      raised := SaveAnswer(proposes);
      if captureError { BrokeStays(captured, trace, broke, analysis, sourcePrivate, fenced); }
    }

    /** What is kept of the answer may be lost, the response itself may not. */
    method SaveAnswer(proposes: bool) returns (raised: Option<Exn>)
      requires Open() && Calm(trace)
      modifies this`trace
      ensures Open() && old(trace) <= trace
      ensures Actions(trace) == old(Actions(trace))
      ensures raised.None? ==> LogOf(trace) == Replying(old(LogOf(trace)), payload, proposes)
      ensures raised.None? ==> EndsAnswered(trace)
      ensures EndsAs(trace, raised)
    {
      raised := FileAnswer();
      if raised.Some? { return; }
      if proposes {
        raised := KeepProposals();
        if raised.Some? { return; }
      }
      raised := Do(BuildResponse);
    }

    /** Proposals that cannot be kept are dropped. */
    method KeepProposals() returns (raised: Option<Exn>)
      requires Open() && Calm(trace)
      modifies this`trace
      ensures Open() && old(trace) <= trace
      ensures Actions(trace) == old(Actions(trace))
      ensures raised.None? ==> LogOf(trace) == Log.Work(old(LogOf(trace)), PersistProposals)
      ensures EndsAs(trace, raised)
    {
      raised := Do(PersistProposals);
      if raised.Some? && (raised.value.IsRuntimeData() || raised.value.Intent? || raised.value.Value?) {
        raised := None;
      }
    }

    method FileAnswer() returns (raised: Option<Exn>)
      requires Open() && Calm(trace)
      modifies this`trace
      ensures Open() && old(trace) <= trace
      ensures Actions(trace) == old(Actions(trace))
      ensures raised.None? ==>
                LogOf(trace) == If(payload.wantsArtifact, Log.Work(old(LogOf(trace)), SaveReply), PersistArtifact)
      ensures EndsAs(trace, raised)
    {
      raised := Do(SaveReply);
      if raised.Some? && !raised.value.History? { return; }
      raised := None;
      if payload.wantsArtifact {
        raised := Do(PersistArtifact);
        if raised == Some(Http) { raised := None; }
      }
    }

    /** `_finish_claimed_chat_turn`: the label is asked for by token, or without one as a fallback. */
    method FinishClaimedTurn(verdict: Label) returns (raised: Option<Exn>)
      requires Open() && payload.hasTurnId
      requires verdict.Failed? ==> !effectPossible
      requires verdict.Uncertain? ==> effectPossible
      requires verdict.Completed? <==> EndsAnswered(trace)
      modifies this`trace
      ensures old(trace) < trace && Labels(trace[|old(trace)|..], verdict)
      ensures trace[|trace| - 1] == Entry(Finish(verdict), raised)
      ensures LabelsOk(trace, payload.email, RecordsStages())
      ensures WritesOk(trace, true) && DraftsOk(trace, payload.email, RecordsStages())
      ensures Actions(trace) == old(Actions(trace)) && LogOf(trace) == old(LogOf(trace))
      ensures |trace| == |old(trace)| + 1 ||
              (hasAttemptToken && |trace| == |old(trace)| + 2 && trace[|old(trace)|].raised == Some(Capability))
    {
      ghost var before := trace;
      ghost var tail: seq<Entry> := [];
      if hasAttemptToken {
        raised := AskForLabel(verdict);
        tail := [Entry(Finish(verdict), raised)];
      }
      if !hasAttemptToken || raised == Some(Capability) {
        raised := AskForLabel(verdict);
        tail := tail + [Entry(Finish(verdict), raised)];
      }
      assert trace == before + tail;
      LabelGoodTurn(before, tail, verdict, effectPossible, payload.email, RecordsStages());
    }

    method AskForLabel(verdict: Label) returns (raised: Option<Exn>)
      modifies this`trace
      ensures trace == old(trace) + [Entry(Finish(verdict), raised)]
      ensures Actions(trace) == old(Actions(trace)) && LogOf(trace) == old(LogOf(trace))
    {
      raised := *;
      ActionsAppend(trace, Entry(Finish(verdict), raised));
      LogAppend(trace, Entry(Finish(verdict), raised));
      trace := trace + [Entry(Finish(verdict), raised)];
    }

    /**
     The claim on the turn identity. Only an accepted claim whose identifiers can be read is durable;
     one that is accepted with others raises outside every handler, after the claim. Only a readable
     replay is answered with a stored response, and work begins only on an accepted claim or, without
     protection, where the claim is not available.
     */
    method ClaimTurn() returns (reply: Option<Reply>)
      requires Open() && trace == [] && !durable && !effectPossible && payload.hasTurnId
      modifies this`trace, this`durable, this`hasAttemptToken, this`resumedStage, this`hasConversation
      ensures Open() && |trace| == 1 && trace[0].call.Claim? && Actions(trace) == [] && LogOf(trace).Start?
      ensures reply.None? ==> Calm(trace)
      ensures durable <==> IsClaimed(trace[0])
      ensures reply.None? <==> IsClaimed(trace[0]) || trace[0].raised == Some(Capability)
      ensures !durable ==> resumedStage == old(resumedStage) && hasConversation == old(hasConversation)
      ensures durable ==>
                var grant := trace[0].call.grant;
                && hasAttemptToken == grant.hasToken && resumedStage == grant.stage
                && (hasConversation <==> old(hasConversation) || grant.hasConversation)
      ensures IsAccepted(trace[0]) && !durable ==> reply == Some(Raised(Value))
      ensures reply.Some? && reply.value.Returned? <==> IsReplayed(trace[0])
      ensures reply.Some? && reply.value.Returned? ==> reply.value.state == CompletedReplay
      ensures reply.Some? && reply.value.Raised? ==> RefusedAs(trace[0], reply.value.exn)
    {
      var outcome: ClaimOutcome, wellFormed: bool := *, *;
      var grant: Grant := *;
      var raised := Boundary(Claim(outcome, wellFormed, grant));
      if raised.Some? {
        if raised.value.Capability? { return None; }
        return Some(Raised(if raised.value.RuntimeData? then Http else raised.value));
      }
      match outcome
      case Replay =>
        var isDict: bool := *;
        return Some(if wellFormed then Returned(CompletedReplay) else Raised(if isDict then Value else Http));
      case Unknown => return Some(Raised(Http));
      case Accepted =>
        if !wellFormed { return Some(Raised(Value)); }
        hasAttemptToken, resumedStage := grant.hasToken, grant.stage;
        hasConversation := hasConversation || grant.hasConversation;
        durable := true;
        return None;
      case _ => return Some(Raised(Http));
    }

    /** How a turn that was let in ends: `worked` calls, then its labels; and what its caller gets. */
    ghost predicate Concluded(worked: nat, reply: Reply) reads this {
      && 0 < worked <= |trace| && Unfinished(trace[..worked])
      && (if EndsAnswered(trace[..worked]) then Calm(trace[..worked]) else Stopped(trace[..worked]))
      && (durable <==> worked < |trace|)
      && (forall i :: worked <= i < |trace| ==> trace[i].call.Finish?)
      && ReplyFits(trace[worked - 1], EndsAnswered(trace[..worked]), durable, trace[|trace| - 1].raised, reply)
    }

    /** The turn and its label. */
    method RunClaimed(sourcePrivate: bool)
      returns (reply: Reply, ghost worked: nat, ghost course: Course, ghost proposes: bool)
      requires Open() && Calm(trace) && ProposeForTheo !in Actions(trace) && LogOf(trace).Start?
      requires durable ==> payload.hasTurnId
      modifies this`trace, this`resumedStage, this`effectPossible
      ensures old(trace) <= trace && LabelsOk(trace, payload.email, RecordsStages())
      ensures WritesOk(trace, payload.hasTurnId) && DraftsOk(trace, payload.email, RecordsStages())
      ensures sourcePrivate ==> ProposeForTheo !in Actions(trace)
      ensures !durable ==> Unfinished(trace)
      ensures |old(trace)| <= worked && Concluded(worked, reply)
      ensures course.resumed == old(resumedStage)
      ensures reply.Returned? ==> LogOf(trace) == WholeTurn(Start, Situation(), course, proposes)
      ensures reply.Returned? && payload.email.ApprovedDraft? ==> HasDraft(trace)
    {
      var raised, analysis, captureError, intents, asked, broke, ran := Execute(sourcePrivate);
      course, proposes, worked := ran, intents, |trace|;
      ghost var executed := trace;
      reply := Conclude(raised);
      DraftStays(executed, trace);
    }

    /** The label of a turn whose work has ended, by its answer or by what was raised. */
    method Conclude(raised: Option<Exn>) returns (reply: Reply)
      requires Open() && trace != [] && EndsAs(trace, raised) && (raised.None? <==> EndsAnswered(trace))
      requires durable ==> payload.hasTurnId
      modifies this`trace
      ensures old(trace) <= trace && LabelsOk(trace, payload.email, RecordsStages())
      ensures WritesOk(trace, payload.hasTurnId) && DraftsOk(trace, payload.email, RecordsStages())
      ensures !durable ==> Unfinished(trace)
      ensures Actions(trace) == old(Actions(trace)) && LogOf(trace) == old(LogOf(trace))
      ensures reply.Returned? ==> raised.None?
      ensures Concluded(|old(trace)|, reply)
    {
      assert trace[..|trace|] == trace;
      UnfinishedIsLabelled(trace, effectPossible, payload.hasTurnId, payload.email, RecordsStages());
      var failure: Option<Exn> := None;
      if raised.Some? {
        reply := Raised(raised.value);
        if durable {
          failure := FinishClaimedTurn(if effectPossible then Uncertain else Failed);
        }
      } else {
        reply := Returned(DurabilityUnavailable);
        if durable {
          failure := FinishClaimedTurn(Completed);
          if failure.None? { reply := Returned(NowCompleted); }
        }
      }
      if failure.Some? && !failure.value.IsRuntimeData() { reply := Raised(failure.value); }
      assert trace[..|old(trace)|] == old(trace);
    }

    /**
     The endpoint. Under a turn identity a memory write is always directly preceded by a durable
     fence, and a draft, where stages are recorded, by the record of its dispatch. A turn is labelled
     completed if and only if the last call before its labels built the response; one labelled failed
     dispatched and announced nothing, one labelled uncertain was fenced or had an approved draft; and
     nothing is dispatched after a label. An accepted claim is followed by a label if and only if its
     identifiers could be read, and a claim that was not accepted leads to no further call at all. The
     caller is told `completed` exactly for an answered turn whose label is known to be stored, and an
     answered turn went through all its work in order.
     */
    method LiChat(sourcePrivate: bool)
      returns (reply: Reply, ghost worked: nat, ghost course: Course, ghost proposes: bool)
      requires Open() && trace == [] && !durable && !effectPossible && resumedStage == 0
      modifies this
      ensures WritesOk(trace, payload.hasTurnId) && DraftsOk(trace, payload.email, RecordsStages())
      ensures LabelsOk(trace, payload.email, RecordsStages())
      ensures sourcePrivate ==> ProposeForTheo !in Actions(trace)
      ensures !durable ==> Unfinished(trace) && course.resumed == 0 && hasConversation == old(hasConversation)
      ensures durable ==> payload.hasTurnId
      ensures payload.hasTurnId ==>
        && |trace| >= 1 && trace[0].call.Claim?
        && (durable <==> IsClaimed(trace[0]))
        && (IsAccepted(trace[0]) ==> (trace[|trace| - 1].call.Finish? <==> trace[0].call.wellFormed))
      ensures durable ==>
        var grant := trace[0].call.grant;
        && course.resumed == grant.stage && (RecordsStages() <==> grant.hasToken)
        && (hasConversation <==> old(hasConversation) || grant.hasConversation)
      ensures payload.hasTurnId && !IsClaimed(trace[0]) && trace[0].raised != Some(Capability) ==>
        && |trace| == 1
        && (if reply.Raised? then RefusedAs(trace[0], reply.exn) else IsReplayed(trace[0]))
      ensures !payload.hasTurnId || IsClaimed(trace[0]) || trace[0].raised == Some(Capability) ==>
        Concluded(worked, reply)
      ensures reply == Returned(CompletedReplay) <==> payload.hasTurnId && IsReplayed(trace[0])
      ensures reply.Returned? && !reply.state.CompletedReplay? ==>
        && LogOf(trace) == WholeTurn(Start, Situation(), course, proposes)
        && (payload.email.ApprovedDraft? ==> HasDraft(trace))
    {
      if payload.hasTurnId {
        var early := ClaimTurn();
        if early.Some? {
          UnfinishedIsLabelled(trace, effectPossible, payload.hasTurnId, payload.email, RecordsStages());
          return early.value, 1, Course(0, false, false), false;
        }
      }
      reply, worked, course, proposes := RunClaimed(sourcePrivate);
    }
  }
}
