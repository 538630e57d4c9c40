/**
 The profile store as a distributed protocol: any number of clients, each a `ProfileApplication`
 over `ProfileState`, `ObjectRepository` and `GoogleCloudObjectStore`, share one provider object.
 Every provider call is a step of its own, so a client's reload, download, compare and write
 interleave with the steps of all the others, replies can be lost, and a write that was sent can
 land at any later time.

 Assumed of the provider and of `uuid4`: a generation names one content for ever, and a fresh
 revision was never used before. Not-found replies, generations reported by a reload and the
 outcome of every call are otherwise arbitrary.
 */
module ProfileProtocol {
  import opened Wrappers
  import opened Uuid
  import opened ProfileCodec

  /** A provider object: its generation and its bytes. */
  datatype Stored = Stored(generation: int, contents: Bytes)

  datatype Operation = Replace | Remove

  /** Why a client is reading: before the upload, after it, or inside compare-and-swap. */
  datatype Purpose = Preflight | Check | Swap(replacement: Snapshot)

  /** `dropped` is the revision that was minted for a write which is then never sent. */
  datatype Outcome =
    | Saved(revision: string)               // the write was confirmed
    | Kept(revision: string)                // nothing to remove
    | Refused(dropped: Option<string>)      // conflict found by a comparison, nothing was sent
    | Lost(revision: string)                // conflict reported by the provider
    | Uncertain(revision: string)           // the write could not be confirmed
    | Unavailable(dropped: Option<string>)  // a read failed, nothing was sent
    | Rejected                              // the upload or its decoding failed

  datatype Phase =
    | Idle
    | Reloading(purpose: Purpose)
    | Downloading(purpose: Purpose, generation: int)
    | Uploading
    | Sent(revision: string)
    | Done(outcome: Outcome)

  datatype Client = Client(op: Operation, expected: string, photo: Option<Bytes>, phase: Phase)

  /** A conditional write on its way to the provider; generation 0 means create-if-absent. */
  datatype Request = Request(expected: string, generation: int, replacement: Snapshot)

  /** One accepted write: what the provider held before it and what it stored. */
  datatype Commit = Commit(expected: string, before: Option<Stored>, after: Stored, replacement: Snapshot)

  /** The provider's side, and what has been sent to it. */
  datatype Store = Store(
    initial: Option<Stored>,
    live: Option<Stored>,
    history: map<int, Bytes>,      // the content each generation ever named
    minted: set<string>,           // revisions already in use
    flight: map<string, Request>,  // sent and not yet landed, by the revision they carry
    decided: map<string, bool>,    // landed writes: accepted, or refused by the precondition
    log: seq<Commit>)

  datatype World = World(store: Store, clients: seq<Client>)

  datatype Event =
    | Start(client: nat, op: Operation, expected: string)
    | ReloadFails(client: nat)
    | ReloadFinds(client: nat, generation: int)
    | ReloadFindsNothing(client: nat, verified: bool, uuid: string)
    | DownloadFails(client: nat)
    | DownloadSucceeds(client: nat, uuid: string)
    | UploadEnds(client: nat, photo: Option<Bytes>)
    | Lands(revision: string, generation: int)
    | ReplyArrives(client: nat)
    | ReplyIsLost(client: nat)

  // ----- one client -----

  /** The revision a reader sees: None when the bytes do not decode. */
  function RevisionOf(stored: Option<Stored>): Option<string> {
    if stored.None? then Some(ABSENT)
    else
      var snapshot := Decode(stored.value.contents);
      if snapshot.None? then None else Some(snapshot.value.revision)
  }

  /** `ProfileApplication.replace` starts with a preflight read, `remove` with the check. */
  function Begin(op: Operation, expected: string): Client {
    if expected != ABSENT && !ValidRevision(expected) then Client(op, expected, None, Done(Refused(None)))
    else Client(op, expected, None, Reloading(if op == Replace then Preflight else Check))
  }

  predicate WriteAccepted(contents: Bytes, generation: int) {
    1 <= |contents| <= MAX_OBJECT_BYTES && generation >= 0
  }

  /** The minted revision a client gives up when its read ends badly. */
  function Dropped(purpose: Purpose): Option<string> {
    if purpose.Swap? then Some(purpose.replacement.revision) else None
  }

  /** What a client does once a read has delivered an object, or its verified absence. */
  function AfterRead(c: Client, purpose: Purpose, stored: Option<Stored>, uuid: string): Phase
    requires purpose.Swap? ==> purpose.replacement.Valid()
  {
    if stored.Some? && !(1 <= |stored.value.contents| <= MAX_OBJECT_BYTES) then Done(Unavailable(Dropped(purpose)))
    else
      var actual := RevisionOf(stored);
      if actual.None? then Done(Unavailable(Dropped(purpose)))
      else if actual.value != c.expected then Done(Refused(Dropped(purpose)))
      else
        match purpose
        case Preflight => Uploading
        case Check =>
          if c.op == Remove && stored.None? then Done(Kept(ABSENT))
          else if c.op == Remove && Decode(stored.value.contents).value.photo.None? then Done(Kept(actual.value))
          else Reloading(Swap(Snapshot(uuid, c.photo)))
        case Swap(replacement) =>
          DecodeOfEncode(replacement);
          if WriteAccepted(Encode(replacement), if stored.Some? then stored.value.generation else 0)
          then Sent(replacement.revision) else Done(Unavailable(Dropped(purpose)))
  }

  // ----- one step of the world -----

  predicate IsClient(w: World, c: nat) { c < |w.clients| }

  predicate Fresh(s: Store, revision: string) { revision !in s.minted && ValidRevision(revision) }

  predicate PurposeValid(p: Purpose) { p.Swap? ==> p.replacement.Valid() }

  /** Only a check mints a revision, so only then must the next `uuid4` be a fresh one. */
  predicate MayFinish(s: Store, p: Purpose, uuid: string) {
    PurposeValid(p) && (p.Check? ==> Fresh(s, uuid))
  }

  /** The provider accepts a write exactly when its generation is still the live one. */
  predicate Holds(live: Option<Stored>, generation: int) {
    if live.None? then generation == 0 else generation == live.value.generation
  }

  predicate Enabled(w: World, e: Event) {
    match e
    case Start(c, _, _) => IsClient(w, c) && (w.clients[c].phase.Idle? || w.clients[c].phase.Done?)
    case ReloadFails(c) => IsClient(w, c) && w.clients[c].phase.Reloading?
    case ReloadFinds(c, _) => IsClient(w, c) && w.clients[c].phase.Reloading?
    case ReloadFindsNothing(c, _, uuid) =>
      && IsClient(w, c) && w.clients[c].phase.Reloading?
      && MayFinish(w.store, w.clients[c].phase.purpose, uuid)
    case DownloadFails(c) => IsClient(w, c) && w.clients[c].phase.Downloading?
    case DownloadSucceeds(c, uuid) =>
      && IsClient(w, c) && w.clients[c].phase.Downloading?
      && w.clients[c].phase.generation in w.store.history
      && MayFinish(w.store, w.clients[c].phase.purpose, uuid)
    case UploadEnds(c, _) => IsClient(w, c) && w.clients[c].phase.Uploading?
    case Lands(revision, generation) =>
      && revision in w.store.flight && w.store.flight[revision].replacement.Valid()
      && generation >= 1 && generation !in w.store.history
    case ReplyArrives(c) =>
      IsClient(w, c) && w.clients[c].phase.Sent? && w.clients[c].phase.revision in w.store.decided
    case ReplyIsLost(c) => IsClient(w, c) && w.clients[c].phase.Sent?
  }

  function Move(w: World, c: nat, phase: Phase): World
    requires IsClient(w, c)
  {
    w.(clients := w.clients[c := w.clients[c].(phase := phase)])
  }

  function FailRead(w: World, c: nat): World
    requires IsClient(w, c) && (w.clients[c].phase.Reloading? || w.clients[c].phase.Downloading?)
  {
    Move(w, c, Done(Unavailable(Dropped(w.clients[c].phase.purpose))))
  }

  /** A completed read: a passing check mints a revision, a passing swap sends its write. */
  function FinishRead(w: World, c: nat, stored: Option<Stored>, purpose: Purpose, uuid: string): World
    requires IsClient(w, c) && PurposeValid(purpose)
  {
    FinishWith(w, c, AfterRead(w.clients[c], purpose, stored, uuid), stored, purpose, uuid)
  }

  function FinishWith(w: World, c: nat, next: Phase, stored: Option<Stored>, purpose: Purpose, uuid: string): World
    requires IsClient(w, c)
  {
    var moved := Move(w, c, next);
    if next.Reloading? then moved.(store := Mint(w.store, uuid))
    else if next.Sent? && purpose.Swap? then
      var generation := if stored.Some? then stored.value.generation else 0;
      moved.(store := Send(w.store, Request(w.clients[c].expected, generation, purpose.replacement)))
    else moved
  }

  function Mint(s: Store, uuid: string): Store { s.(minted := s.minted + {uuid}) }

  function Send(s: Store, r: Request): Store { s.(flight := s.flight[r.replacement.revision := r]) }

  /** Delivery of a write: it replaces the object or is refused, and is decided once. */
  function Land(s: Store, revision: string, generation: int): Store
    requires revision in s.flight && s.flight[revision].replacement.Valid()
  {
    var r := s.flight[revision];
    if Holds(s.live, r.generation) then
      DecodeOfEncode(r.replacement);
      Accept(s, revision, r, Stored(generation, Encode(r.replacement)))
    else Refuse(s, revision)
  }

  function Refuse(s: Store, revision: string): Store {
    s.(flight := s.flight - {revision}, decided := s.decided[revision := false])
  }

  function Accept(s: Store, revision: string, r: Request, after: Stored): Store {
    s.(live := Some(after),
       history := s.history[after.generation := after.contents],
       flight := s.flight - {revision},
       decided := s.decided[revision := true],
       log := s.log + [Commit(r.expected, s.live, after, r.replacement)])
  }

  function Step(w: World, e: Event): World
    requires Enabled(w, e)
  {
    match e
    case Start(c, op, expected) => w.(clients := w.clients[c := Begin(op, expected)])
    case ReloadFails(c) => FailRead(w, c)
    case ReloadFinds(c, generation) =>
      if generation < 1 then FailRead(w, c)
      else Move(w, c, Downloading(w.clients[c].phase.purpose, generation))
    case ReloadFindsNothing(c, verified, uuid) =>
      if !verified then FailRead(w, c)
      else FinishRead(w, c, None, w.clients[c].phase.purpose, uuid)
    case DownloadFails(c) => FailRead(w, c)
    case DownloadSucceeds(c, uuid) =>
      var pinned := w.clients[c].phase.generation;
      FinishRead(w, c, Some(Stored(pinned, w.store.history[pinned])), w.clients[c].phase.purpose, uuid)
    case UploadEnds(c, photo) =>
      if photo.None? || !Normalized(photo.value) then Move(w, c, Done(Rejected))
      else w.(clients := w.clients[c := w.clients[c].(photo := photo, phase := Reloading(Check))])
    case Lands(revision, generation) => w.(store := Land(w.store, revision, generation))
    case ReplyArrives(c) =>
      var revision := w.clients[c].phase.revision;
      Move(w, c, Done(if w.store.decided[revision] then Saved(revision) else Lost(revision)))
    case ReplyIsLost(c) => Move(w, c, Done(Uncertain(w.clients[c].phase.revision)))
  }

  /** A run is any sequence of steps, each possible where it is taken. */
  predicate IsRun(w: World, events: seq<Event>)
    decreases |events|
  {
    events == [] || (Enabled(w, events[0]) && IsRun(Step(w, events[0]), events[1..]))
  }

  function Run(w: World, events: seq<Event>): World
    requires IsRun(w, events)
    decreases |events|
  {
    if events == [] then w else Run(Step(w, events[0]), events[1..])
  }

  /** Any number of idle clients over an object that may be absent or hold any bytes at all. */
  predicate Initial(w: World) {
    && w.store.live == w.store.initial
    && w.store.history == (match w.store.initial
                           case None => map[]
                           case Some(o) => map[o.generation := o.contents])
    && (w.store.initial.Some? ==> w.store.initial.value.generation >= 1)
    && (RevisionOf(w.store.initial).Some? ==> RevisionOf(w.store.initial).value in w.store.minted)
    && w.store.flight == map[] && w.store.decided == map[] && w.store.log == []
    && forall c :: 0 <= c < |w.clients| ==> w.clients[c].phase.Idle? && w.clients[c].photo.None?
  }

  // ----- the invariant -----

  /** A request in flight was justified by bytes its condition still names. */
  ghost predicate Justified(history: map<int, Bytes>, r: Request) {
    if r.generation == 0 then r.expected == ABSENT
    else
      && r.generation in history
      && RevisionOf(Some(Stored(r.generation, history[r.generation]))) == Some(r.expected)
  }

  ghost predicate ObjectInv(s: Store) {
    && (forall g :: g in s.history ==> g >= 1)
    && (s.live.Some? ==>
          s.live.value.generation in s.history && s.history[s.live.value.generation] == s.live.value.contents)
    && (RevisionOf(s.initial).Some? ==> RevisionOf(s.initial).value in s.minted)
  }

  /** A revision the clients minted, so not the one the object started with. */
  ghost predicate Own(s: Store, v: string) {
    v in s.minted && RevisionOf(s.initial) != Some(v)
  }

  ghost predicate FlightInv(s: Store) {
    forall v :: v in s.flight ==>
      && Own(s, v) && v !in s.decided
      && s.flight[v].replacement.revision == v && s.flight[v].replacement.Valid()
      && Justified(s.history, s.flight[v])
  }

  /** What the provider held just before the i-th commit. */
  ghost function Before(s: Store, i: nat): Option<Stored>
    requires i <= |s.log|
  {
    if i == 0 then s.initial else Some(s.log[i - 1].after)
  }

  ghost predicate CommitInv(s: Store, i: nat)
    requires i < |s.log|
  {
    var c := s.log[i];
    && c.before == Before(s, i)
    && RevisionOf(c.before) == Some(c.expected)
    && c.replacement.Valid()
    && Decode(c.after.contents) == Some(c.replacement)
    && Own(s, c.replacement.revision)
  }

  ghost predicate LogInv(s: Store) {
    && s.live == Before(s, |s.log|)
    && (forall i :: 0 <= i < |s.log| ==> CommitInv(s, i))
    && (forall i, j :: 0 <= i < j < |s.log| ==>
          s.log[i].replacement.revision != s.log[j].replacement.revision)
  }

  ghost predicate InLog(log: seq<Commit>, revision: string) {
    exists i :: 0 <= i < |log| && log[i].replacement.revision == revision
  }

  /** A write is decided in its favour exactly when it is in the log. */
  ghost predicate DecidedInv(s: Store) {
    && (forall v :: v in s.decided ==> v in s.minted)
    && (forall v :: InLog(s.log, v) <==> v in s.decided && s.decided[v])
  }

  ghost predicate StoreInv(s: Store) {
    ObjectInv(s) && FlightInv(s) && LogInv(s) && DecidedInv(s)
  }

  /** The revision a client has minted and may still send. */
  ghost function Pending(phase: Phase): Option<string> {
    match phase
    case Reloading(p) => Dropped(p)
    case Downloading(p, _) => Dropped(p)
    case _ => None
  }

  /** The revision a client holds between minting it and learning its fate, or starting anew. */
  ghost function Held(phase: Phase): Option<string> {
    match phase
    case Sent(v) => Some(v)
    case Done(outcome) => if outcome.Refused? || outcome.Unavailable? then outcome.dropped else None
    case _ => Pending(phase)
  }

  ghost predicate Landable(s: Store, v: string) { v in s.flight || v in s.decided }

  /** The write that carries revision v is the client's own: its photo on its expected revision. */
  ghost predicate Carries(s: Store, c: Client, v: string) {
    && (v in s.flight ==> s.flight[v].expected == c.expected && s.flight[v].replacement == Snapshot(v, c.photo))
    && (forall i :: 0 <= i < |s.log| && s.log[i].replacement.revision == v ==>
          s.log[i].expected == c.expected && s.log[i].replacement == Snapshot(v, c.photo))
  }

  ghost predicate PurposeInv(s: Store, c: Client, p: Purpose) {
    match p
    case Preflight => c.op == Replace
    case Check => c.op == Replace ==> c.photo.Some?
    case Swap(replacement) =>
      && replacement == Snapshot(replacement.revision, c.photo) && replacement.Valid()
      && Own(s, replacement.revision) && !Landable(s, replacement.revision)
  }

  ghost predicate OutcomeInv(s: Store, c: Client, outcome: Outcome) {
    match outcome
    case Saved(v) => v in s.decided && s.decided[v] && Carries(s, c, v)
    case Lost(v) => v in s.decided && !s.decided[v]
    case Uncertain(v) => Landable(s, v) && Carries(s, c, v)
    case Refused(d) => d.Some? ==> Own(s, d.value) && !Landable(s, d.value)
    case Unavailable(d) => d.Some? ==> Own(s, d.value) && !Landable(s, d.value)
    case _ => true
  }

  ghost predicate PhaseInv(s: Store, c: Client) {
    match c.phase
    case Reloading(p) => PurposeInv(s, c, p)
    case Downloading(p, g) => g >= 1 && PurposeInv(s, c, p)
    case Uploading => c.op == Replace
    case Sent(v) => v in s.minted && Landable(s, v) && Carries(s, c, v)
    case Done(outcome) => OutcomeInv(s, c, outcome)
    case Idle => true
  }

  ghost predicate ClientInv(s: Store, c: Client) {
    && (c.photo.Some? ==> Normalized(c.photo.value))
    && (c.op == Remove ==> c.photo.None?)
    && PhaseInv(s, c)
  }

  ghost predicate Apart(clients: seq<Client>) {
    forall c, d :: 0 <= c < d < |clients| && Held(clients[c].phase).Some? ==>
      Held(clients[c].phase) != Held(clients[d].phase)
  }

  ghost predicate Inv(w: World) {
    && StoreInv(w.store)
    && (forall c :: 0 <= c < |w.clients| ==> ClientInv(w.store, w.clients[c]))
    && Apart(w.clients)
  }

  // ----- every step keeps it -----

  lemma InitialInv(w: World)
    requires Initial(w)
    ensures Inv(w)
  {
  }

  lemma HeldIsMinted(s: Store, c: Client)
    requires ClientInv(s, c) && Held(c.phase).Some?
    ensures Held(c.phase).value in s.minted
  {
  }

  /** A client may take any phase that is good for it, as long as it holds no new revision. */
  lemma ReplaceClient(w: World, c: nat, k: Client)
    requires Inv(w) && IsClient(w, c) && ClientInv(w.store, k)
    requires Held(k.phase).None? || Held(k.phase) == Held(w.clients[c].phase)
    ensures Inv(w.(clients := w.clients[c := k]))
  {
    SamePhasesStayApart(w.clients, c, k);
  }

  lemma MintKeepsStore(s: Store, uuid: string)
    requires StoreInv(s)
    ensures StoreInv(Mint(s, uuid))
  {
    SameLog(s, Mint(s, uuid));
  }

  /** The log stays in order when only the minted revisions grow and what is in flight changes. */
  lemma SameLog(s: Store, t: Store)
    requires LogInv(s) && t.log == s.log && t.live == s.live && t.initial == s.initial && s.minted <= t.minted
    ensures LogInv(t)
  {
    forall i | 0 <= i < |t.log| ensures CommitInv(t, i) {
      assert CommitInv(s, i) && Before(t, i) == Before(s, i);
    }
  }

  lemma MintKeepsClient(s: Store, uuid: string, c: Client)
    requires ClientInv(s, c)
    ensures ClientInv(Mint(s, uuid), c)
  {
  }

  lemma MintGoodClient(s: Store, uuid: string, c: Client)
    requires StoreInv(s) && ClientInv(s, c) && Fresh(s, uuid)
    ensures ClientInv(Mint(s, uuid), c.(phase := Reloading(Swap(Snapshot(uuid, c.photo)))))
  {
    assert Own(Mint(s, uuid), uuid);
    assert !Landable(s, uuid);
  }

  lemma MintKeepsInv(w: World, c: nat, uuid: string)
    requires Inv(w) && IsClient(w, c) && Fresh(w.store, uuid)
    ensures
      var next := Reloading(Swap(Snapshot(uuid, w.clients[c].photo)));
      Inv(Move(w, c, next).(store := Mint(w.store, uuid)))
  {
    var next := Reloading(Swap(Snapshot(uuid, w.clients[c].photo)));
    var x := Move(w, c, next).(store := Mint(w.store, uuid));
    MintKeepsStore(w.store, uuid);
    forall i | 0 <= i < |x.clients| ensures ClientInv(x.store, x.clients[i]) {
      if i == c { MintGoodClient(w.store, uuid, w.clients[c]); }
      else { MintKeepsClient(w.store, uuid, w.clients[i]); }
    }
    forall i, j | 0 <= i < j < |x.clients| && Held(x.clients[i].phase).Some?
      ensures Held(x.clients[i].phase) != Held(x.clients[j].phase)
    {
      if Held(x.clients[j].phase).Some? {
        if i == c { HeldIsMinted(w.store, w.clients[j]); }
        if j == c { HeldIsMinted(w.store, w.clients[i]); }
      }
    }
  }

  lemma SendKeepsStore(s: Store, r: Request)
    requires StoreInv(s) && Justified(s.history, r) && r.replacement.Valid()
    requires Own(s, r.replacement.revision) && !Landable(s, r.replacement.revision)
    ensures StoreInv(Send(s, r))
  {
    SameLog(s, Send(s, r));
    SendKeepsFlight(s, r);
  }

  lemma SendKeepsFlight(s: Store, r: Request)
    requires FlightInv(s) && Justified(s.history, r) && r.replacement.Valid()
    requires Own(s, r.replacement.revision) && !Landable(s, r.replacement.revision)
    ensures FlightInv(Send(s, r))
  {
  }

  lemma SendKeepsClient(s: Store, r: Request, c: Client)
    requires ClientInv(s, c) && !Landable(s, r.replacement.revision)
    requires Held(c.phase) != Some(r.replacement.revision)
    ensures ClientInv(Send(s, r), c)
  {
  }

  lemma SendKeepsInv(w: World, c: nat, r: Request)
    requires Inv(w) && IsClient(w, c)
    requires Held(w.clients[c].phase) == Some(r.replacement.revision)
    requires r.expected == w.clients[c].expected && Justified(w.store.history, r)
    requires PurposeInv(w.store, w.clients[c], Swap(r.replacement))
    ensures Inv(Move(w, c, Sent(r.replacement.revision)).(store := Send(w.store, r)))
  {
    var v := r.replacement.revision;
    var x := Move(w, c, Sent(v)).(store := Send(w.store, r));
    SendKeepsStore(w.store, r);
    forall i | 0 <= i < |x.clients| ensures ClientInv(x.store, x.clients[i]) {
      if i == c {
        SendGoodClient(w.store, r, w.clients[c]);
      } else {
        SendKeepsClient(w.store, r, w.clients[i]);
      }
    }
    SamePhasesStayApart(w.clients, c, w.clients[c].(phase := Sent(v)));
  }

  lemma SendGoodClient(s: Store, r: Request, c: Client)
    requires StoreInv(s) && ClientInv(s, c)
    requires r.expected == c.expected && PurposeInv(s, c, Swap(r.replacement))
    ensures ClientInv(Send(s, r), c.(phase := Sent(r.replacement.revision)))
  {
    assert !InLog(s.log, r.replacement.revision);
  }

  /** A client that holds nothing new leaves all held revisions distinct. */
  lemma SamePhasesStayApart(clients: seq<Client>, c: nat, k: Client)
    requires Apart(clients) && c < |clients|
    requires Held(k.phase).None? || Held(k.phase) == Held(clients[c].phase)
    ensures Apart(clients[c := k])
  {
    var others := clients[c := k];
    forall i, j | 0 <= i < j < |others| && Held(others[i].phase).Some?
      ensures Held(others[i].phase) != Held(others[j].phase)
    {
      assert Held(clients[i].phase).Some? ==> Held(clients[i].phase) != Held(clients[j].phase);
    }
  }

  // ----- a write lands -----

  /** The heart of the protocol: a write whose generation still holds replaces what it expected. */
  lemma JustifiedHolds(s: Store, r: Request)
    requires ObjectInv(s) && Justified(s.history, r) && Holds(s.live, r.generation)
    ensures RevisionOf(s.live) == Some(r.expected)
  {
  }

  /** An acceptable landing: the condition holds, and the stored bytes spell the replacement. */
  ghost predicate CanLand(s: Store, revision: string, after: Stored) {
    && revision in s.flight && Holds(s.live, s.flight[revision].generation)
    && after.generation >= 1 && after.generation !in s.history
    && Decode(after.contents) == Some(s.flight[revision].replacement)
  }

  lemma AcceptKeepsFlight(s: Store, revision: string, after: Stored)
    requires FlightInv(s) && CanLand(s, revision, after)
    ensures FlightInv(Accept(s, revision, s.flight[revision], after))
  {
    var t := Accept(s, revision, s.flight[revision], after);
    forall v | v in t.flight ensures Justified(t.history, t.flight[v]) {
      assert Justified(s.history, s.flight[v]);
    }
  }

  lemma CommitKept(s: Store, revision: string, r: Request, after: Stored, i: nat)
    requires i < |s.log| && CommitInv(s, i)
    ensures CommitInv(Accept(s, revision, r, after), i)
  {
    var t := Accept(s, revision, r, after);
    assert t.log[i] == s.log[i] && Before(t, i) == Before(s, i);
  }

  lemma CommitAdded(s: Store, revision: string, after: Stored)
    requires ObjectInv(s) && FlightInv(s) && CanLand(s, revision, after) && s.live == Before(s, |s.log|)
    ensures CommitInv(Accept(s, revision, s.flight[revision], after), |s.log|)
  {
    JustifiedHolds(s, s.flight[revision]);
  }

  lemma AcceptKeepsLog(s: Store, revision: string, after: Stored)
    requires StoreInv(s) && CanLand(s, revision, after)
    ensures LogInv(Accept(s, revision, s.flight[revision], after))
  {
    var t := Accept(s, revision, s.flight[revision], after);
    forall i | 0 <= i < |t.log| ensures CommitInv(t, i) {
      AcceptKeepsCommit(s, revision, after, i);
    }
    LandedIsNew(s, revision, after);
  }

  lemma AcceptKeepsCommit(s: Store, revision: string, after: Stored, i: nat)
    requires ObjectInv(s) && FlightInv(s) && CanLand(s, revision, after) && s.live == Before(s, |s.log|)
    requires i == |s.log| || (i < |s.log| && CommitInv(s, i))
    ensures CommitInv(Accept(s, revision, s.flight[revision], after), i)
  {
    if i < |s.log| {
      CommitKept(s, revision, s.flight[revision], after, i);
    } else {
      CommitAdded(s, revision, after);
    }
  }

  lemma LandedIsNew(s: Store, revision: string, after: Stored)
    requires LogInv(s) && FlightInv(s) && DecidedInv(s) && CanLand(s, revision, after)
    ensures
      var log := Accept(s, revision, s.flight[revision], after).log;
      forall i, j :: 0 <= i < j < |log| ==> log[i].replacement.revision != log[j].replacement.revision
  {
    assert !InLog(s.log, revision);
  }

  lemma AcceptKeepsDecided(s: Store, revision: string, after: Stored)
    requires FlightInv(s) && DecidedInv(s) && CanLand(s, revision, after)
    ensures DecidedInv(Accept(s, revision, s.flight[revision], after))
  {
    var t := Accept(s, revision, s.flight[revision], after);
    forall v ensures InLog(t.log, v) <==> v in t.decided && t.decided[v] {
      InLogAppend(s.log, t.log[|s.log|], v);
    }
  }

  lemma InLogAppend(log: seq<Commit>, c: Commit, v: string)
    ensures InLog(log + [c], v) <==> InLog(log, v) || c.replacement.revision == v
  {
    var longer := log + [c];
    if InLog(log, v) {
      var i :| 0 <= i < |log| && log[i].replacement.revision == v;
      assert longer[i].replacement.revision == v;
    }
    if c.replacement.revision == v {
      assert longer[|log|].replacement.revision == v;
    }
  }

  lemma RefuseKeepsStore(s: Store, revision: string)
    requires StoreInv(s) && revision in s.flight
    ensures StoreInv(Refuse(s, revision))
  {
    SameLog(s, Refuse(s, revision));
    RefuseKeepsDecided(s, revision);
  }

  lemma RefuseKeepsDecided(s: Store, revision: string)
    requires FlightInv(s) && DecidedInv(s) && revision in s.flight
    ensures DecidedInv(Refuse(s, revision))
  {
    assert !InLog(s.log, revision);
  }

  lemma LandKeepsStore(s: Store, revision: string, generation: int)
    requires StoreInv(s) && revision in s.flight && generation >= 1 && generation !in s.history
    ensures StoreInv(Land(s, revision, generation))
  {
    var r := s.flight[revision];
    if Holds(s.live, r.generation) {
      DecodeOfEncode(r.replacement);
      AcceptKeepsStore(s, revision, Stored(generation, Encode(r.replacement)));
    } else {
      RefuseKeepsStore(s, revision);
    }
  }

  lemma AcceptKeepsStore(s: Store, revision: string, after: Stored)
    requires StoreInv(s) && CanLand(s, revision, after)
    ensures StoreInv(Accept(s, revision, s.flight[revision], after))
  {
    AcceptKeepsFlight(s, revision, after);
    AcceptKeepsLog(s, revision, after);
    AcceptKeepsDecided(s, revision, after);
  }

  /** The write in flight under a revision is valid, undecided, and carries that revision. */
  ghost predicate AwaitsLanding(s: Store, revision: string) {
    && revision in s.flight && revision !in s.decided
    && s.flight[revision].replacement.revision == revision && s.flight[revision].replacement.Valid()
  }

  /** Whoever lands, a write that is in flight or in the log stays the client's own. */
  lemma LandKeepsCarries(s: Store, revision: string, generation: int, c: Client, v: string)
    requires AwaitsLanding(s, revision) && Carries(s, c, v)
    ensures Carries(Land(s, revision, generation), c, v)
  {
    var t := Land(s, revision, generation);
    forall i | 0 <= i < |t.log| && t.log[i].replacement.revision == v
      ensures t.log[i].expected == c.expected && t.log[i].replacement == Snapshot(v, c.photo)
    {
      if i < |s.log| { assert t.log[i] == s.log[i]; }
    }
  }

  lemma LandKeepsPurpose(s: Store, t: Store, c: Client, p: Purpose)
    requires PurposeInv(s, c, p) && t.minted == s.minted && t.initial == s.initial
    requires forall v :: Landable(t, v) <==> Landable(s, v)
    ensures PurposeInv(t, c, p)
  {
    if p.Swap? { assert Own(s, p.replacement.revision) && Own(t, p.replacement.revision); }
  }

  lemma LandKeepsOutcome(s: Store, revision: string, generation: int, c: Client, outcome: Outcome)
    requires AwaitsLanding(s, revision) && OutcomeInv(s, c, outcome)
    ensures OutcomeInv(Land(s, revision, generation), c, outcome)
  {
    match outcome
    case Saved(v) => LandKeepsCarries(s, revision, generation, c, v);
    case Uncertain(v) => LandKeepsCarries(s, revision, generation, c, v);
    case _ =>
  }

  lemma LandKeepsClient(s: Store, revision: string, generation: int, c: Client)
    requires AwaitsLanding(s, revision) && ClientInv(s, c)
    ensures ClientInv(Land(s, revision, generation), c)
  {
    var t := Land(s, revision, generation);
    assert t.minted == s.minted && t.initial == s.initial;
    assert forall v :: Landable(t, v) <==> Landable(s, v);
    match c.phase
    case Sent(v) => LandKeepsCarries(s, revision, generation, c, v);
    case Reloading(p) => assert PurposeInv(t, c, p) by { LandKeepsPurpose(s, t, c, p); }
    case Downloading(p, g) => assert PurposeInv(t, c, p) by { LandKeepsPurpose(s, t, c, p); }
    case Done(outcome) => LandKeepsOutcome(s, revision, generation, c, outcome);
    case _ =>
  }

  // ----- every step and every run -----

  /** A finished read leaves the client, and what it mints or sends, as the invariant asks. */
  lemma FinishReadKeepsInv(w: World, c: nat, stored: Option<Stored>, purpose: Purpose, uuid: string)
    requires Inv(w) && IsClient(w, c) && MayFinish(w.store, purpose, uuid)
    requires PurposeInv(w.store, w.clients[c], purpose)
    requires (purpose.Swap? ==> Held(w.clients[c].phase) == Some(purpose.replacement.revision))
    requires stored.Some? ==>
      && stored.value.generation >= 1 && stored.value.generation in w.store.history
      && stored.value.contents == w.store.history[stored.value.generation]
    ensures Inv(FinishRead(w, c, stored, purpose, uuid))
  {
    var next := AfterRead(w.clients[c], purpose, stored, uuid);
    if next.Reloading? {
      OnlyACheckMints(w.clients[c], purpose, stored, uuid);
      MintKeepsInv(w, c, uuid);
    } else if next.Sent? {
      SendingReadKeepsInv(w, c, stored, purpose, uuid);
    } else {
      OtherReadsAreFinal(w.clients[c], purpose, stored, uuid);
      FinalReadKeepsClient(w.store, w.clients[c], purpose, next);
      ReplaceClient(w, c, w.clients[c].(phase := next));
    }
  }

  lemma FailedReadKeepsInv(w: World, c: nat)
    requires Inv(w) && IsClient(w, c) && (w.clients[c].phase.Reloading? || w.clients[c].phase.Downloading?)
    ensures Inv(FailRead(w, c))
  {
    FailedReadKeepsClient(w.store, w.clients[c]);
    ReplaceClient(w, c, FailRead(w, c).clients[c]);
  }

  lemma OnlyACheckMints(k: Client, purpose: Purpose, stored: Option<Stored>, uuid: string)
    requires PurposeValid(purpose) && AfterRead(k, purpose, stored, uuid).Reloading?
    ensures purpose.Check? && AfterRead(k, purpose, stored, uuid) == Reloading(Swap(Snapshot(uuid, k.photo)))
  {
  }

  /** How a read ends that mints and sends nothing. */
  predicate IsFinal(purpose: Purpose, next: Phase) {
    || (next.Uploading? && purpose.Preflight?)
    || (next.Done? && next.outcome.Kept?)
    || next == Done(Refused(Dropped(purpose)))
    || next == Done(Unavailable(Dropped(purpose)))
  }

  lemma OtherReadsAreFinal(k: Client, purpose: Purpose, stored: Option<Stored>, uuid: string)
    requires PurposeValid(purpose)
    ensures
      var next := AfterRead(k, purpose, stored, uuid);
      next.Reloading? || next.Sent? || IsFinal(purpose, next)
  {
  }

  lemma FinalReadKeepsClient(s: Store, k: Client, purpose: Purpose, next: Phase)
    requires PurposeInv(s, k, purpose) && IsFinal(purpose, next)
    requires (k.photo.Some? ==> Normalized(k.photo.value)) && (k.op == Remove ==> k.photo.None?)
    ensures (Held(next).None? || Held(next) == Dropped(purpose)) && ClientInv(s, k.(phase := next))
  {
  }

  lemma SendingReadKeepsInv(w: World, c: nat, stored: Option<Stored>, purpose: Purpose, uuid: string)
    requires Inv(w) && IsClient(w, c) && PurposeValid(purpose)
    requires AfterRead(w.clients[c], purpose, stored, uuid).Sent?
    requires PurposeInv(w.store, w.clients[c], purpose)
    requires (purpose.Swap? ==> Held(w.clients[c].phase) == Some(purpose.replacement.revision))
    requires stored.Some? ==>
      && stored.value.generation >= 1 && stored.value.generation in w.store.history
      && stored.value.contents == w.store.history[stored.value.generation]
    ensures Inv(FinishRead(w, c, stored, purpose, uuid))
  {
    SwapReadIsJustified(w, c, stored, purpose, uuid);
    var generation := if stored.Some? then stored.value.generation else 0;
    SendKeepsInv(w, c, Request(w.clients[c].expected, generation, purpose.replacement));
  }

  /** A write is sent only when what was read under its generation carries the expected revision. */
  lemma SwapReadIsJustified(w: World, c: nat, stored: Option<Stored>, purpose: Purpose, uuid: string)
    requires IsClient(w, c) && PurposeValid(purpose)
    requires AfterRead(w.clients[c], purpose, stored, uuid).Sent?
    requires stored.Some? ==>
      && stored.value.generation >= 1 && stored.value.generation in w.store.history
      && stored.value.contents == w.store.history[stored.value.generation]
    ensures purpose.Swap?
    ensures
      var generation := if stored.Some? then stored.value.generation else 0;
      Justified(w.store.history, Request(w.clients[c].expected, generation, purpose.replacement))
  {
  }

  lemma StepKeepsInv(w: World, e: Event)
    requires Inv(w) && Enabled(w, e)
    ensures Inv(Step(w, e))
  {
    match e
    case ReloadFindsNothing(c, verified, uuid) =>
      if verified {
        FinishReadKeepsInv(w, c, None, w.clients[c].phase.purpose, uuid);
      } else {
        FailedReadKeepsInv(w, c);
      }
    case DownloadSucceeds(c, uuid) =>
      var pinned := w.clients[c].phase.generation;
      FinishReadKeepsInv(w, c, Some(Stored(pinned, w.store.history[pinned])), w.clients[c].phase.purpose, uuid);
    case Lands(revision, generation) => LandKeepsInv(w, revision, generation);
    case _ => LocalStepKeepsInv(w, e);
  }

  lemma LandKeepsInv(w: World, revision: string, generation: int)
    requires Inv(w) && Enabled(w, Lands(revision, generation))
    ensures Inv(Step(w, Lands(revision, generation)))
  {
    LandKeepsStore(w.store, revision, generation);
    assert AwaitsLanding(w.store, revision);
    forall i | 0 <= i < |w.clients| ensures ClientInv(Land(w.store, revision, generation), w.clients[i]) {
      LandKeepsClient(w.store, revision, generation, w.clients[i]);
    }
  }

  /** The steps that concern one client and leave the provider alone. */
  predicate IsLocal(e: Event) { !e.ReloadFindsNothing? && !e.DownloadSucceeds? && !e.Lands? }

  lemma LocalStepKeepsInv(w: World, e: Event)
    requires Inv(w) && Enabled(w, e) && IsLocal(e)
    ensures Inv(Step(w, e))
  {
    var c, k := e.client, Step(w, e).clients[e.client];
    assert Step(w, e) == w.(clients := w.clients[c := k]);
    assert ClientInv(w.store, w.clients[c]);
    LocalStepKeepsClient(w, e);
    ReplaceClient(w, c, k);
  }

  lemma LocalStepKeepsClient(w: World, e: Event)
    requires Enabled(w, e) && IsLocal(e) && ClientInv(w.store, w.clients[e.client])
    ensures
      var k := Step(w, e).clients[e.client];
      && ClientInv(w.store, k)
      && (Held(k.phase).None? || Held(k.phase) == Held(w.clients[e.client].phase))
  {
    var k := w.clients[e.client];
    match e
    case ReloadFails(_) => FailedReadKeepsClient(w.store, k);
    case ReloadFinds(_, generation) => if generation < 1 { FailedReadKeepsClient(w.store, k); }
    case DownloadFails(_) => FailedReadKeepsClient(w.store, k);
    case Start(_, op, expected) => NewRequestIsGood(w.store, op, expected);
    case ReplyArrives(_) => ReplyKeepsClient(w.store, k, w.store.decided[k.phase.revision]);
    case _ =>
  }

  lemma NewRequestIsGood(s: Store, op: Operation, expected: string)
    ensures ClientInv(s, Begin(op, expected)) && Held(Begin(op, expected).phase).None?
  {
  }

  /** The provider's verdict on a client's write, once it has one. */
  lemma ReplyKeepsClient(s: Store, k: Client, accepted: bool)
    requires ClientInv(s, k) && k.phase.Sent?
    requires k.phase.revision in s.decided && s.decided[k.phase.revision] == accepted
    ensures
      var v := k.phase.revision;
      ClientInv(s, k.(phase := Done(if accepted then Saved(v) else Lost(v))))
  {
  }

  lemma FailedReadKeepsClient(s: Store, k: Client)
    requires ClientInv(s, k) && (k.phase.Reloading? || k.phase.Downloading?)
    ensures
      var failed := k.(phase := Done(Unavailable(Dropped(k.phase.purpose))));
      ClientInv(s, failed) && Held(failed.phase) == Held(k.phase)
  {
  }

  lemma {:induction false} RunKeepsInv(w: World, events: seq<Event>)
    requires Inv(w) && IsRun(w, events)
    ensures Inv(Run(w, events))
    decreases |events|
  {
    if events != [] {
      StepKeepsInv(w, events[0]);
      RunKeepsInv(Step(w, events[0]), events[1..]);
    }
  }

  // ----- what holds of every run -----

  /** The i-th accepted write replaced what the write before it stored, at its expected revision. */
  ghost predicate ReplacedItsExpected(start: Option<Stored>, log: seq<Commit>, i: nat)
    requires i < |log|
  {
    && log[i].before == (if i == 0 then start else Some(log[i - 1].after))
    && RevisionOf(log[i].before) == Some(log[i].expected)
    && Decode(log[i].after.contents) == Some(log[i].replacement)
  }

  lemma CommitReplaced(s: Store, i: nat)
    requires i < |s.log| && CommitInv(s, i)
    ensures ReplacedItsExpected(s.initial, s.log, i)
  {
  }

  /**
   Although read, compare and write are separate steps, each accepted write replaced an object
   whose decoded revision was the writer's expected one, or absence for `ABSENT`; and the object
   is always the one the last accepted write stored.
   */
  lemma EveryWriteReplacedItsExpected(w: World, events: seq<Event>)
    requires Initial(w) && IsRun(w, events)
    ensures
      var log := Run(w, events).store.log;
      && (forall i :: 0 <= i < |log| ==> ReplacedItsExpected(w.store.live, log, i))
      && Run(w, events).store.live == (if log == [] then w.store.live else Some(log[|log| - 1].after))
  {
    RunStore(w, events);
    LogReplaced(Run(w, events).store);
  }

  lemma LogReplaced(s: Store)
    requires LogInv(s)
    ensures forall i :: 0 <= i < |s.log| ==> ReplacedItsExpected(s.initial, s.log, i)
    ensures s.live == if s.log == [] then s.initial else Some(s.log[|s.log| - 1].after)
  {
    forall i | 0 <= i < |s.log| ensures ReplacedItsExpected(s.initial, s.log, i) {
      CommitReplaced(s, i);
    }
  }

  lemma RunStore(w: World, events: seq<Event>)
    requires Initial(w) && IsRun(w, events)
    ensures StoreInv(Run(w, events).store) && Run(w, events).store.initial == w.store.live
  {
    InitialInv(w);
    RunKeepsInv(w, events);
    RunKeepsInitial(w, events);
  }

  lemma {:induction false} RunKeepsInitial(w: World, events: seq<Event>)
    requires IsRun(w, events)
    ensures Run(w, events).store.initial == w.store.initial
    decreases |events|
  {
    if events != [] {
      RunKeepsInitial(Step(w, events[0]), events[1..]);
    }
  }

  lemma ExpectedChain(s: Store, i: nat)
    requires LogInv(s) && 0 < i < |s.log|
    ensures s.log[i].expected == s.log[i - 1].replacement.revision
    ensures s.log[i].expected != ABSENT && RevisionOf(s.initial) != Some(s.log[i].expected)
  {
    assert CommitInv(s, i) && CommitInv(s, i - 1);
    RevisionIsAscii(s.log[i - 1].replacement);
  }

  /** At most one write is accepted per expected revision, and `ABSENT` is left at most once. */
  lemma RevisionsFormAChain(w: World, events: seq<Event>)
    requires Initial(w) && IsRun(w, events)
    ensures
      var log := Run(w, events).store.log;
      && (forall i :: 0 < i < |log| ==>
            log[i].expected == log[i - 1].replacement.revision && log[i].expected != ABSENT)
      && (forall i, j :: 0 <= i < j < |log| ==>
            log[i].expected != log[j].expected && log[i].replacement.revision != log[j].replacement.revision)
  {
    InitialInv(w);
    RunKeepsInv(w, events);
    var s := Run(w, events).store;
    forall i | 0 < i < |s.log|
      ensures s.log[i].expected == s.log[i - 1].replacement.revision && s.log[i].expected != ABSENT
    {
      ExpectedChain(s, i);
    }
    forall i, j | 0 <= i < j < |s.log| ensures s.log[i].expected != s.log[j].expected {
      ExpectedChain(s, j);
      if i > 0 { ExpectedChain(s, i); } else { assert CommitInv(s, 0); }
    }
  }

  /** Landing decides one write, and accepts no other than the one in flight. */
  lemma LandOnlyAdds(s: Store, revision: string, generation: int)
    requires AwaitsLanding(s, revision)
    ensures OnlyAdds(s, Land(s, revision, generation))
  {
    var t := Land(s, revision, generation);
    forall i | |s.log| <= i < |t.log|
      ensures t.log[i].replacement.revision == revision && t.log[i].expected == s.flight[revision].expected
    {
    }
  }

  /** Decided writes and the log stay; what was in flight is still there, or landed as sent. */
  ghost predicate OnlyAdds(s: Store, t: Store) {
    && s.log <= t.log
    && (forall v :: v in s.decided ==> v in t.decided && t.decided[v] == s.decided[v])
    && (forall v :: v in s.flight && v in t.flight ==> t.flight[v] == s.flight[v])
    && (forall v :: v in s.flight && v !in t.flight ==> v in t.decided)
    && (forall i :: |s.log| <= i < |t.log| ==> t.log[i].replacement.revision !in s.decided)
    && (forall i :: |s.log| <= i < |t.log| && t.log[i].replacement.revision in s.flight ==>
          t.log[i].expected == s.flight[t.log[i].replacement.revision].expected)
  }

  lemma StepOnlyAdds(w: World, e: Event)
    requires Inv(w) && Enabled(w, e)
    ensures OnlyAdds(w.store, Step(w, e).store)
  {
    var s := w.store;
    match e
    case ReloadFindsNothing(c, verified, uuid) =>
      if verified { FinishOnlyAdds(w, c, None, w.clients[c].phase.purpose, uuid); }
    case DownloadSucceeds(c, uuid) =>
      var pinned := w.clients[c].phase.generation;
      FinishOnlyAdds(w, c, Some(Stored(pinned, s.history[pinned])), w.clients[c].phase.purpose, uuid);
    case Lands(revision, generation) =>
      assert AwaitsLanding(s, revision);
      LandOnlyAdds(s, revision, generation);
    case _ => assert Step(w, e).store == s;
  }

  lemma FinishOnlyAdds(w: World, c: nat, stored: Option<Stored>, purpose: Purpose, uuid: string)
    requires IsClient(w, c) && ClientInv(w.store, w.clients[c]) && PurposeInv(w.store, w.clients[c], purpose)
    ensures OnlyAdds(w.store, FinishRead(w, c, stored, purpose, uuid).store)
  {
  }

  lemma OnlyAddsTrans(s: Store, t: Store, u: Store)
    requires OnlyAdds(s, t) && OnlyAdds(t, u)
    requires forall v :: v in u.flight ==> v !in u.decided
    ensures OnlyAdds(s, u)
  {
    forall v | v in s.flight && v in u.flight ensures u.flight[v] == s.flight[v] {
    }
    forall i | |s.log| <= i < |u.log| && u.log[i].replacement.revision in s.flight
      ensures u.log[i].expected == s.flight[u.log[i].replacement.revision].expected
    {
      var v := u.log[i].replacement.revision;
      if i < |t.log| { assert u.log[i] == t.log[i]; }
    }
  }

  lemma {:induction false} RunOnlyAdds(w: World, events: seq<Event>)
    requires Inv(w) && IsRun(w, events)
    ensures OnlyAdds(w.store, Run(w, events).store)
    decreases |events|
  {
    if events != [] {
      var m := Step(w, events[0]);
      StepOnlyAdds(w, events[0]);
      StepKeepsInv(w, events[0]);
      RunOnlyAdds(m, events[1..]);
      RunKeepsInv(m, events[1..]);
      OnlyAddsTrans(w.store, m.store, Run(w, events).store);
    }
  }

  /** The one accepted write of a client that was told its save succeeded. */
  ghost predicate IsTheSave(log: seq<Commit>, i: nat, c: Client, v: string) {
    && i < |log| && log[i].expected == c.expected && log[i].replacement == Snapshot(v, c.photo)
    && forall j :: 0 <= j < |log| && j != i ==> log[j].replacement.revision != v
  }

  lemma SaveStays(s: Store, t: Store, c: Client, v: string) returns (i: nat)
    requires InLog(s.log, v) && Carries(s, c, v) && s.log <= t.log && LogInv(t)
    ensures IsTheSave(t.log, i, c, v)
  {
    i :| 0 <= i < |s.log| && s.log[i].replacement.revision == v;
    assert t.log[i] == s.log[i];
  }

  /**
   What a client is told stays true for ever: a confirmed save is in the log, once, with the
   client's photo over its expected revision; one that lost, that a comparison refused or that was
   given up after a failed read never gets in, however long one waits.
   */
  lemma RepliesAreTrueForEver(w: World, before: seq<Event>, m: World, after: seq<Event>, x: World, c: nat)
    requires Initial(w) && IsRun(w, before) && m == Run(w, before)
    requires IsRun(m, after) && x == Run(m, after)
    requires IsClient(m, c) && m.clients[c].phase.Done?
    ensures
      var outcome := m.clients[c].phase.outcome;
      && (outcome.Saved? ==> exists i: nat :: IsTheSave(x.store.log, i, m.clients[c], outcome.revision))
      && (outcome.Lost? ==> !InLog(x.store.log, outcome.revision))
      && ((outcome.Refused? || outcome.Unavailable?) && outcome.dropped.Some? ==>
            !InLog(x.store.log, outcome.dropped.value))
  {
    InitialInv(w);
    RunKeepsInv(w, before);
    RunOnlyAdds(m, after);
    RunKeepsInv(m, after);
    var outcome := m.clients[c].phase.outcome;
    assert ClientInv(m.store, m.clients[c]) && OutcomeInv(m.store, m.clients[c], outcome);
    if outcome.Saved? {
      var i := SaveStays(m.store, x.store, m.clients[c], outcome.revision);
    } else if (outcome.Refused? || outcome.Unavailable?) && outcome.dropped.Some? {
      DroppedIsAbandoned(m, c);
      RunKeepsAbandoned(m, after, outcome.dropped.value);
    }
  }

  // ----- a revision that was given up -----

  /** Minted, never sent, and nobody is about to send it. */
  ghost predicate Abandoned(w: World, v: string) {
    && v in w.store.minted && !Landable(w.store, v)
    && forall i :: 0 <= i < |w.clients| ==> Pending(w.clients[i].phase) != Some(v)
  }

  lemma DroppedIsAbandoned(w: World, c: nat)
    requires Inv(w) && IsClient(w, c) && w.clients[c].phase.Done? && Held(w.clients[c].phase).Some?
    ensures Abandoned(w, Held(w.clients[c].phase).value)
  {
    var v := Held(w.clients[c].phase);
    assert ClientInv(w.store, w.clients[c]);
    forall i | 0 <= i < |w.clients| ensures Pending(w.clients[i].phase) != v {
      if i < c {
        assert Held(w.clients[i].phase).Some? ==> Held(w.clients[i].phase) != v;
      } else if c < i {
        assert Held(w.clients[c].phase) != Held(w.clients[i].phase);
      }
    }
  }

  lemma FinishReadKeepsAbandoned(w: World, c: nat, stored: Option<Stored>, purpose: Purpose, uuid: string, v: string)
    requires IsClient(w, c) && MayFinish(w.store, purpose, uuid) && Abandoned(w, v)
    requires Dropped(purpose) == Pending(w.clients[c].phase)
    ensures Abandoned(FinishRead(w, c, stored, purpose, uuid), v)
  {
    var next := AfterRead(w.clients[c], purpose, stored, uuid);
    if next.Reloading? {
      OnlyACheckMints(w.clients[c], purpose, stored, uuid);
    } else if next.Sent? {
      OnlyASwapSends(w.clients[c], purpose, stored, uuid);
    } else {
      OtherReadsAreFinal(w.clients[c], purpose, stored, uuid);
    }
  }

  lemma OnlyASwapSends(k: Client, purpose: Purpose, stored: Option<Stored>, uuid: string)
    requires PurposeValid(purpose) && AfterRead(k, purpose, stored, uuid).Sent?
    ensures purpose.Swap? && AfterRead(k, purpose, stored, uuid) == Sent(purpose.replacement.revision)
  {
  }

  lemma StepKeepsAbandoned(w: World, e: Event, v: string)
    requires Abandoned(w, v) && Enabled(w, e)
    ensures Abandoned(Step(w, e), v)
  {
    match e
    case ReloadFindsNothing(c, verified, uuid) =>
      if verified { FinishReadKeepsAbandoned(w, c, None, w.clients[c].phase.purpose, uuid, v); }
    case DownloadSucceeds(c, uuid) =>
      var pinned := w.clients[c].phase.generation;
      var stored := Some(Stored(pinned, w.store.history[pinned]));
      FinishReadKeepsAbandoned(w, c, stored, w.clients[c].phase.purpose, uuid, v);
    case _ =>
  }

  lemma {:induction false} RunKeepsAbandoned(w: World, events: seq<Event>, v: string)
    requires Inv(w) && Abandoned(w, v) && IsRun(w, events)
    ensures !InLog(Run(w, events).store.log, v)
    decreases |events|
  {
    if events != [] {
      StepKeepsInv(w, events[0]);
      StepKeepsAbandoned(w, events[0], v);
      RunKeepsAbandoned(Step(w, events[0]), events[1..], v);
    }
  }

  /**
   A removal is final: once its tombstone is stored, no write based on the removed revision or an
   older one is accepted after it, and one still in flight never lands, however late it is delivered.
   */
  lemma RemovalIsFinal(
      w: World, before: seq<Event>, m: World, after: seq<Event>, x: World, removal: nat, older: nat, v: string)
    requires Initial(w) && IsRun(w, before) && m == Run(w, before)
    requires IsRun(m, after) && x == Run(m, after)
    requires older <= removal < |m.store.log| && m.store.log[removal].replacement.photo.None?
    ensures m.store.log <= x.store.log
    ensures forall i :: removal < i < |x.store.log| ==> x.store.log[i].expected != m.store.log[older].expected
    ensures v in m.store.flight && m.store.flight[v].expected == m.store.log[older].expected ==> !InLog(x.store.log, v)
  {
    InitialInv(w);
    RunKeepsInv(w, before);
    RunOnlyAdds(m, after);
    RunConcat(w, before, m, after);
    RevisionsFormAChain(w, before + after);
    var log := x.store.log;
    assert log[older] == m.store.log[older];
    if v in m.store.flight && m.store.flight[v].expected == log[older].expected {
      assert !InLog(m.store.log, v);
      forall j | 0 <= j < |log| ensures log[j].replacement.revision != v {
        if j < |m.store.log| {
          assert log[j] == m.store.log[j];
        }
      }
    }
  }

  /** Wherever `part` leads to m, `whole` is a run and leads to x. */
  ghost predicate Extends(part: seq<Event>, m: World, whole: seq<Event>, x: World) {
    forall y :: IsRun(y, part) && Run(y, part) == m ==> IsRun(y, whole) && Run(y, whole) == x
  }

  lemma ExtendsOneMore(w: World, e: Event, part: seq<Event>, rest: seq<Event>, m: World, whole: seq<Event>,
                       tail: seq<Event>, x: World)
    requires part != [] && part[0] == e && part[1..] == rest
    requires whole != [] && whole[0] == e && whole[1..] == tail
    requires IsRun(w, part) && m == Run(w, part) && Extends(rest, m, tail, x)
    ensures IsRun(w, whole) && Run(w, whole) == x
  {
    var y := Step(w, e);
    assert IsRun(y, rest) && Run(y, rest) == m;
    assert IsRun(y, tail) && Run(y, tail) == x;
  }

  lemma {:induction false} ExtendsBy(before: seq<Event>, m: World, after: seq<Event>, whole: seq<Event>, x: World)
    requires whole == before + after && IsRun(m, after) && x == Run(m, after)
    ensures Extends(before, m, whole, x)
    decreases |before|
  {
    if before == [] {
      assert whole == after;
    } else {
      var rest, tail := before[1..], whole[1..];
      ExtendsBy(rest, m, after, tail, x);
      forall w | IsRun(w, before) && Run(w, before) == m ensures IsRun(w, whole) && Run(w, whole) == x {
        ExtendsOneMore(w, before[0], before, rest, m, whole, tail, x);
      }
    }
  }

  lemma RunConcat(w: World, before: seq<Event>, m: World, after: seq<Event>)
    requires IsRun(w, before) && m == Run(w, before) && IsRun(m, after)
    ensures IsRun(w, before + after) && Run(w, before + after) == Run(m, after)
  {
    ExtendsBy(before, m, after, before + after, Run(m, after));
  }

  // ----- the model is not empty -----

  lemma RunFrom(w: World, e: Event, rest: seq<Event>)
    requires Enabled(w, e) && IsRun(Step(w, e), rest)
    ensures IsRun(w, [e] + rest) && Run(w, [e] + rest) == Run(Step(w, e), rest)
  {
    assert ([e] + rest)[1..] == rest;
  }

  function GenerationOf(stored: Option<Stored>): int {
    if stored.Some? then stored.value.generation else 0
  }

  /** Whether a client may move from the current object at all, and what it then writes. */
  predicate Writes(s: Store, op: Operation, expected: string, photo: Option<Bytes>) {
    && RevisionOf(s.live) == Some(expected)
    && (op == Replace ==> photo.Some? && Normalized(photo.value))
    && (op == Remove ==>
          photo.None? && s.live.Some? && Decode(s.live.value.contents).value.photo.Some?)
  }

  /** A read that nobody disturbs delivers the live object, or its verified absence. */
  lemma ReadsTheLive(w: World, c: nat, purpose: Purpose, uuid: string) returns (events: seq<Event>)
    requires IsClient(w, c) && w.clients[c].phase == Reloading(purpose) && ObjectInv(w.store)
    requires MayFinish(w.store, purpose, uuid)
    ensures IsRun(w, events) && Run(w, events) == FinishRead(w, c, w.store.live, purpose, uuid)
  {
    if w.store.live.None? {
      RunFrom(w, ReloadFindsNothing(c, true, uuid), []);
      events := [ReloadFindsNothing(c, true, uuid)] + [];
    } else {
      var found, downloaded := ReloadFinds(c, w.store.live.value.generation), DownloadSucceeds(c, uuid);
      DownloadsTheLive(w, c, purpose, uuid);
      RunFrom(Step(w, found), downloaded, []);
      RunFrom(w, found, [downloaded] + []);
      events := [found] + ([downloaded] + []);
    }
  }

  lemma DownloadsTheLive(w: World, c: nat, purpose: Purpose, uuid: string)
    requires IsClient(w, c) && w.clients[c].phase == Reloading(purpose) && ObjectInv(w.store)
    requires MayFinish(w.store, purpose, uuid) && w.store.live.Some?
    ensures
      var found, downloaded := ReloadFinds(c, w.store.live.value.generation), DownloadSucceeds(c, uuid);
      && Enabled(w, found) && Enabled(Step(w, found), downloaded)
      && Step(Step(w, found), downloaded) == FinishRead(w, c, w.store.live, purpose, uuid)
  {
    var live := w.store.live.value;
    var m := Step(w, ReloadFinds(c, live.generation));
    assert m == Move(w, c, Downloading(purpose, live.generation));
    assert w.store.live == Some(Stored(live.generation, w.store.history[live.generation]));
    ReadIgnoresPhase(w, c, Downloading(purpose, live.generation), w.store.live, purpose, uuid);
  }

  /** What a read leads to does not depend on the phase it was made in. */
  lemma ReadIgnoresPhase(w: World, c: nat, phase: Phase, stored: Option<Stored>, purpose: Purpose, uuid: string)
    requires IsClient(w, c) && PurposeValid(purpose)
    ensures FinishRead(Move(w, c, phase), c, stored, purpose, uuid) == FinishRead(w, c, stored, purpose, uuid)
  {
    AnswerIgnoresPhase(w.clients[c], phase, purpose, stored, uuid);
    MoveIgnoresPhase(w, c, phase, AfterRead(w.clients[c], purpose, stored, uuid), stored, purpose, uuid);
  }

  lemma MoveIgnoresPhase(w: World, c: nat, phase: Phase, next: Phase, stored: Option<Stored>, purpose: Purpose,
                         uuid: string)
    requires IsClient(w, c)
    ensures FinishWith(Move(w, c, phase), c, next, stored, purpose, uuid) ==
            FinishWith(w, c, next, stored, purpose, uuid)
  {
    assert Move(Move(w, c, phase), c, next) == Move(w, c, next);
  }

  lemma AnswerIgnoresPhase(k: Client, phase: Phase, purpose: Purpose, stored: Option<Stored>, uuid: string)
    requires PurposeValid(purpose)
    ensures AfterRead(k.(phase := phase), purpose, stored, uuid) == AfterRead(k, purpose, stored, uuid)
  {
  }

  /** What is read under the revision it expects takes a client on. */
  lemma ExpectedReadGoesOn(s: Store, k: Client, purpose: Purpose, uuid: string)
    requires RevisionOf(s.live) == Some(k.expected) && PurposeValid(purpose) && ObjectInv(s)
    ensures
      var next := AfterRead(k, purpose, s.live, uuid);
      && (purpose.Preflight? ==> next == Uploading)
      && (purpose.Check? && Writes(s, k.op, k.expected, k.photo) ==> next == Reloading(Swap(Snapshot(uuid, k.photo))))
      && (purpose.Swap? ==> next == Sent(purpose.replacement.revision))
  {
    if s.live.Some? {
      EncodeOfDecode(s.live.value.contents);
      DecodeOfEncode(Decode(s.live.value.contents).value);
    }
    if purpose.Swap? { DecodeOfEncode(purpose.replacement); }
  }

  /** From its check on, an undisturbed client sends its write. */
  lemma CheckedRequestIsSent(w: World, c: nat, k: Client, uuid: string) returns (events: seq<Event>, sent: World)
    requires IsClient(w, c) && w.clients[c] == k && k.phase == Reloading(Check) && ObjectInv(w.store)
    requires Writes(w.store, k.op, k.expected, k.photo) && Fresh(w.store, uuid)
    ensures IsRun(w, events) && sent == Run(w, events)
    ensures sent.clients == w.clients[c := k.(phase := Sent(uuid))]
    ensures sent.store ==
            Send(Mint(w.store, uuid), Request(k.expected, GenerationOf(w.store.live), Snapshot(uuid, k.photo)))
  {
    var swap := Swap(Snapshot(uuid, k.photo));
    var first := ReadsTheLive(w, c, Check, uuid);
    ExpectedReadGoesOn(w.store, k, Check, uuid);
    var m := Run(w, first);
    var second := ReadsTheLive(m, c, swap, uuid);
    ExpectedReadGoesOn(m.store, m.clients[c], swap, uuid);
    RunConcat(w, first, m, second);
    events, sent := first + second, Run(m, second);
  }

  /** Undisturbed, a request for the current revision is sent: an upload after a preflight, or a removal. */
  lemma RequestIsSent(w: World, c: nat, op: Operation, expected: string, photo: Option<Bytes>, uuid: string)
    returns (events: seq<Event>, sent: World)
    requires IsClient(w, c) && (w.clients[c].phase.Idle? || w.clients[c].phase.Done?) && ObjectInv(w.store)
    requires Writes(w.store, op, expected, photo) && Fresh(w.store, uuid)
    ensures IsRun(w, events) && sent == Run(w, events)
    ensures sent.clients == w.clients[c := Client(op, expected, photo, Sent(uuid))]
    ensures sent.store ==
            Send(Mint(w.store, uuid), Request(expected, GenerationOf(w.store.live), Snapshot(uuid, photo)))
  {
    var k := Client(op, expected, photo, Reloading(Check));
    var before := ReachesCheck(w, c, op, expected, photo, uuid);
    var m := w.(clients := w.clients[c := k]);
    var rest;
    rest, sent := CheckedRequestIsSent(m, c, k, uuid);
    RunConcat(w, before, m, rest);
    events := before + rest;
    assert m.clients[c := k.(phase := Sent(uuid))] == w.clients[c := Client(op, expected, photo, Sent(uuid))];
  }

  lemma ReachesCheck(w: World, c: nat, op: Operation, expected: string, photo: Option<Bytes>, uuid: string)
    returns (events: seq<Event>)
    requires IsClient(w, c) && (w.clients[c].phase.Idle? || w.clients[c].phase.Done?) && ObjectInv(w.store)
    requires Writes(w.store, op, expected, photo)
    ensures IsRun(w, events)
    ensures Run(w, events) == w.(clients := w.clients[c := Client(op, expected, photo, Reloading(Check))])
  {
    var start := Start(c, op, expected);
    CurrentIsRequestable(w.store, expected);
    var m := Step(w, start);
    if op == Remove {
      RunFrom(w, start, []);
      events := [start] + [];
    } else {
      var read := ReadsTheLive(m, c, Preflight, uuid);
      ExpectedReadGoesOn(m.store, m.clients[c], Preflight, uuid);
      var upload := UploadEnds(c, photo);
      var n := Run(m, read);
      RunFrom(n, upload, []);
      RunConcat(m, read, n, [upload] + []);
      RunFrom(w, start, read + ([upload] + []));
      events := [start] + (read + ([upload] + []));
    }
  }

  lemma CurrentIsRequestable(s: Store, expected: string)
    ensures RevisionOf(s.live) == Some(expected) ==> expected == ABSENT || ValidRevision(expected)
  {
    if s.live.Some? && RevisionOf(s.live).Some? { EncodeOfDecode(s.live.value.contents); }
  }

  lemma LandsOnWhatItRead(sent: World, r: Request, generation: int) returns (y: World)
    requires r.replacement.Valid() && r.generation == GenerationOf(sent.store.live) && ObjectInv(sent.store)
    requires r.replacement.revision in sent.store.flight && sent.store.flight[r.replacement.revision] == r
    requires generation >= 1 && generation !in sent.store.history
    ensures Enabled(sent, Lands(r.replacement.revision, generation))
    ensures y == Step(sent, Lands(r.replacement.revision, generation))
    ensures y.clients == sent.clients && y.store.minted == sent.store.minted
    ensures y.store.history.Keys == sent.store.history.Keys + {generation}
    ensures r.replacement.revision in y.store.decided && y.store.decided[r.replacement.revision]
    ensures y.store.live.Some? && Decode(y.store.live.value.contents) == Some(r.replacement)
    ensures y.store.log == sent.store.log + [Commit(r.expected, sent.store.live, y.store.live.value, r.replacement)]
  {
    DecodeOfEncode(r.replacement);
    y := Step(sent, Lands(r.replacement.revision, generation));
  }

  /**
   The store makes progress: from every reachable state, a save or a removal of the current revision
   that nobody disturbs is confirmed, with its commit at the end of the log.
   */
  lemma UndisturbedRequestIsSaved(w: World, c: nat, op: Operation, expected: string, photo: Option<Bytes>,
                                  uuid: string, generation: int)
    returns (events: seq<Event>, x: World)
    requires Inv(w) && IsClient(w, c) && (w.clients[c].phase.Idle? || w.clients[c].phase.Done?)
    requires Writes(w.store, op, expected, photo) && Fresh(w.store, uuid)
    requires generation >= 1 && generation !in w.store.history
    ensures IsRun(w, events) && x == Run(w, events)
    ensures x.clients == w.clients[c := Client(op, expected, photo, Done(Saved(uuid)))]
    ensures |x.store.log| == |w.store.log| + 1 && w.store.log <= x.store.log
    ensures
      var commit := x.store.log[|w.store.log|];
      && commit.expected == expected && commit.before == w.store.live
      && commit.replacement == Snapshot(uuid, photo) && x.store.live == Some(commit.after)
      && Decode(commit.after.contents) == Some(Snapshot(uuid, photo))
    ensures x.store.minted == w.store.minted + {uuid} && x.store.history.Keys == w.store.history.Keys + {generation}
  {
    var before, sent := RequestIsSent(w, c, op, expected, photo, uuid);
    var after;
    var r := Request(expected, GenerationOf(w.store.live), Snapshot(uuid, photo));
    after, x := SentWriteIsConfirmed(sent, c, r, generation);
    RunConcat(w, before, sent, after);
    events := before + after;
    assert x.clients == w.clients[c := Client(op, expected, photo, Done(Saved(uuid)))];
  }

  /** A write that lands on what it read, and whose reply arrives. */
  lemma SentWriteIsConfirmed(sent: World, c: nat, r: Request, generation: int) returns (events: seq<Event>, x: World)
    requires r.replacement.Valid() && r.generation == GenerationOf(sent.store.live) && ObjectInv(sent.store)
    requires r.replacement.revision in sent.store.flight && sent.store.flight[r.replacement.revision] == r
    requires generation >= 1 && generation !in sent.store.history
    requires IsClient(sent, c) && sent.clients[c].phase == Sent(r.replacement.revision)
    ensures IsRun(sent, events) && x == Run(sent, events)
    ensures x.clients == sent.clients[c := sent.clients[c].(phase := Done(Saved(r.replacement.revision)))]
    ensures x.store.minted == sent.store.minted
    ensures x.store.history.Keys == sent.store.history.Keys + {generation}
    ensures x.store.live.Some? && Decode(x.store.live.value.contents) == Some(r.replacement)
    ensures x.store.log == sent.store.log + [Commit(r.expected, sent.store.live, x.store.live.value, r.replacement)]
  {
    var lands, reply := Lands(r.replacement.revision, generation), ReplyArrives(c);
    var y := LandsOnWhatItRead(sent, r, generation);
    x := Step(y, reply);
    RunFrom(y, reply, []);
    RunFrom(sent, lands, [reply] + []);
    events := [lands] + ([reply] + []);
  }

  /** A run with a tombstone in its log: one client saves, then removes what it saved. */
  lemma SavedAndRemoved(w: World, photo: Bytes, first: string, second: string) returns (events: seq<Event>)
    requires Initial(w) && w.store.live == None && |w.clients| > 0 && Normalized(photo)
    requires Fresh(w.store, first) && Fresh(w.store, second) && first != second
    ensures IsRun(w, events)
    ensures
      var log := Run(w, events).store.log;
      |log| == 2 && log[0].replacement == Snapshot(first, Some(photo)) && log[1].replacement == Snapshot(second, None)
  {
    InitialInv(w);
    var save, m := UndisturbedRequestIsSaved(w, 0, Replace, ABSENT, Some(photo), first, 1);
    RunKeepsInv(w, save);
    assert Inv(m) && Writes(m.store, Remove, first, None) && Fresh(m.store, second);
    var remove, x := UndisturbedRequestIsSaved(m, 0, Remove, first, None, second, 2);
    RunConcat(w, save, m, remove);
    events := save + remove;
    assert x.store.log[0] == m.store.log[0];
  }

  /** The first save of a lone client, up to the moment its write is on the way. */
  lemma FirstSaveIsSent(w: World, photo: Bytes, uuid: string) returns (events: seq<Event>, sent: World)
    requires Initial(w) && w.store.live == None && |w.clients| > 0
    requires Normalized(photo) && Fresh(w.store, uuid)
    ensures IsRun(w, events) && sent == Run(w, events) && |sent.clients| == |w.clients|
    ensures sent.clients[0].phase == Sent(uuid)
    ensures sent.store == Send(Mint(w.store, uuid), Request(ABSENT, 0, Snapshot(uuid, Some(photo))))
  {
    InitialInv(w);
    events, sent := RequestIsSent(w, 0, Replace, ABSENT, Some(photo), uuid);
  }

  /** A save whose reply was lost can land afterwards: `Uncertain` promises neither outcome. */
  lemma UncertainSaveCanStillLand(w: World, photo: Bytes, uuid: string, generation: int)
    returns (events: seq<Event>, told: World, x: World)
    requires Initial(w) && w.store.live == None && |w.clients| > 0
    requires Normalized(photo) && Fresh(w.store, uuid) && generation >= 1
    ensures IsRun(w, events) && told == Run(w, events) && |told.clients| > 0
    ensures told.clients[0].phase == Done(Uncertain(uuid)) && told.store.live == None
    ensures Enabled(told, Lands(uuid, generation)) && x == Step(told, Lands(uuid, generation))
    ensures x.store.live.Some? && Decode(x.store.live.value.contents) == Some(Snapshot(uuid, Some(photo)))
  {
    var sent;
    events, sent := FirstSaveIsSent(w, photo, uuid);
    var lost := ReplyIsLost(0);
    told := Step(sent, lost);
    RunFrom(sent, lost, []);
    RunConcat(w, events, sent, [lost] + []);
    events := events + ([lost] + []);
    x := Step(told, Lands(uuid, generation));
    LandsOnNothing(told.store, Request(ABSENT, 0, Snapshot(uuid, Some(photo))), generation);
  }

  lemma LandsOnNothing(s: Store, r: Request, generation: int)
    requires s.live.None? && r.generation == 0 && r.replacement.Valid()
    requires r.replacement.revision in s.flight && s.flight[r.replacement.revision] == r
    ensures
      var t := Land(s, r.replacement.revision, generation);
      t.live.Some? && Decode(t.live.value.contents) == Some(r.replacement)
  {
    DecodeOfEncode(r.replacement);
  }

  // ----- a tombstone replaces a photo -----

  /** The revision was on the object at the start, or some accepted write put it there. */
  ghost predicate Known(s: Store, v: string) { RevisionOf(s.initial) == Some(v) || InLog(s.log, v) }

  ghost predicate HistoryIsKnown(s: Store) {
    forall g :: g in s.history && Decode(s.history[g]).Some? ==> Known(s, Decode(s.history[g]).value.revision)
  }

  /** One revision names one snapshot, whatever generations it was stored under. */
  ghost predicate RevisionsNameOne(history: map<int, Bytes>) {
    forall g, h :: g in history && h in history && SameRevision(history[g], history[h]) ==>
      Decode(history[g]) == Decode(history[h])
  }

  predicate SameRevision(a: Bytes, b: Bytes) {
    Decode(a).Some? && Decode(b).Some? && Decode(a).value.revision == Decode(b).value.revision
  }

  predicate ShowsPhoto(contents: Bytes, v: string) {
    Decode(contents).Some? && Decode(contents).value.revision == v && Decode(contents).value.photo.Some?
  }

  /** The revision once named a photo. */
  ghost predicate HadPhoto(history: map<int, Bytes>, v: string) {
    exists g :: g in history && ShowsPhoto(history[g], v)
  }

  ghost predicate FlightRemovesPhotos(s: Store) {
    forall v :: v in s.flight && s.flight[v].replacement.photo.None? ==> HadPhoto(s.history, s.flight[v].expected)
  }

  ghost predicate ReplacedAPhoto(commit: Commit) {
    && commit.before.Some? && Decode(commit.before.value.contents).Some?
    && Decode(commit.before.value.contents).value.photo.Some?
  }

  ghost predicate LogRemovesPhotos(log: seq<Commit>) {
    forall i :: 0 <= i < |log| && log[i].replacement.photo.None? ==> ReplacedAPhoto(log[i])
  }

  ghost predicate StoreRemovesPhotos(s: Store) {
    HistoryIsKnown(s) && RevisionsNameOne(s.history) && FlightRemovesPhotos(s) && LogRemovesPhotos(s.log)
  }

  predicate IsRemoving(phase: Phase) {
    match phase
    case Reloading(p) => p.Swap? && p.replacement.photo.None?
    case Downloading(p, _) => p.Swap? && p.replacement.photo.None?
    case _ => false
  }

  ghost predicate ClientRemovesPhoto(history: map<int, Bytes>, c: Client) {
    IsRemoving(c.phase) ==> HadPhoto(history, c.expected)
  }

  ghost predicate RemovesPhotos(w: World) {
    && StoreRemovesPhotos(w.store)
    && forall c :: 0 <= c < |w.clients| ==> ClientRemovesPhoto(w.store.history, w.clients[c])
  }

  lemma PhotoStays(history: map<int, Bytes>, generation: int, contents: Bytes, v: string)
    requires HadPhoto(history, v) && generation !in history
    ensures HadPhoto(history[generation := contents], v)
  {
    var later := history[generation := contents];
    var g :| g in history && ShowsPhoto(history[g], v);
    assert g in later && ShowsPhoto(later[g], v);
  }

  /** A revision that is about to land is not on any object yet. */
  lemma LandingIsUnknown(s: Store, revision: string, after: Stored, g: int)
    requires FlightInv(s) && DecidedInv(s) && HistoryIsKnown(s) && CanLand(s, revision, after)
    requires g in s.history && Decode(s.history[g]).Some?
    ensures Decode(s.history[g]).value.revision != revision
  {
    assert Own(s, revision) && !InLog(s.log, revision);
  }

  lemma AcceptKeepsHistory(s: Store, revision: string, after: Stored)
    requires FlightInv(s) && DecidedInv(s) && HistoryIsKnown(s) && RevisionsNameOne(s.history)
    requires CanLand(s, revision, after)
    ensures
      var t := Accept(s, revision, s.flight[revision], after);
      HistoryIsKnown(t) && RevisionsNameOne(t.history)
  {
    var t := Accept(s, revision, s.flight[revision], after);
    forall g | g in t.history && Decode(t.history[g]).Some?
      ensures Known(t, Decode(t.history[g]).value.revision)
    {
      InLogAppend(s.log, t.log[|s.log|], Decode(t.history[g]).value.revision);
    }
    forall g, h | g in t.history && h in t.history && SameRevision(t.history[g], t.history[h])
      ensures Decode(t.history[g]) == Decode(t.history[h])
    {
      if g in s.history && h == after.generation { LandingIsUnknown(s, revision, after, g); }
      if h in s.history && g == after.generation { LandingIsUnknown(s, revision, after, h); }
    }
  }

  /** What a landing tombstone replaces is the photo that its client saw. */
  lemma TombstoneReplacesPhoto(s: Store, revision: string, after: Stored)
    requires ObjectInv(s) && FlightInv(s) && RevisionsNameOne(s.history) && FlightRemovesPhotos(s)
    requires CanLand(s, revision, after) && s.flight[revision].replacement.photo.None?
    ensures s.live.Some? && Decode(s.live.value.contents).Some? && Decode(s.live.value.contents).value.photo.Some?
  {
    var r := s.flight[revision];
    JustifiedHolds(s, r);
    var g :| g in s.history && ShowsPhoto(s.history[g], r.expected);
    EncodeOfDecode(s.history[g]);
    RevisionIsAscii(Decode(s.history[g]).value);
    assert SameRevision(s.history[g], s.history[s.live.value.generation]);
  }

  lemma AcceptKeepsFlightPhotos(s: Store, revision: string, after: Stored)
    requires FlightRemovesPhotos(s) && CanLand(s, revision, after)
    ensures FlightRemovesPhotos(Accept(s, revision, s.flight[revision], after))
  {
    var t := Accept(s, revision, s.flight[revision], after);
    forall v | v in t.flight && t.flight[v].replacement.photo.None? ensures HadPhoto(t.history, t.flight[v].expected) {
      PhotoStays(s.history, after.generation, after.contents, s.flight[v].expected);
    }
  }

  lemma AcceptKeepsLogPhotos(s: Store, revision: string, r: Request, after: Stored)
    requires LogRemovesPhotos(s.log)
    requires r.replacement.photo.None? ==> ReplacedAPhoto(Commit(r.expected, s.live, after, r.replacement))
    ensures LogRemovesPhotos(Accept(s, revision, r, after).log)
  {
    var log := Accept(s, revision, r, after).log;
    forall i | 0 <= i < |log| && log[i].replacement.photo.None? ensures ReplacedAPhoto(log[i]) {
      if i < |s.log| { assert log[i] == s.log[i]; }
    }
  }

  lemma AcceptRemovesPhotos(s: Store, revision: string, after: Stored)
    requires StoreInv(s) && StoreRemovesPhotos(s) && CanLand(s, revision, after)
    ensures StoreRemovesPhotos(Accept(s, revision, s.flight[revision], after))
  {
    AcceptKeepsHistory(s, revision, after);
    AcceptKeepsFlightPhotos(s, revision, after);
    if s.flight[revision].replacement.photo.None? { TombstoneReplacesPhoto(s, revision, after); }
    AcceptKeepsLogPhotos(s, revision, s.flight[revision], after);
  }

  lemma LandRemovesPhotos(w: World, revision: string, generation: int)
    requires Inv(w) && RemovesPhotos(w) && Enabled(w, Lands(revision, generation))
    ensures RemovesPhotos(Step(w, Lands(revision, generation)))
  {
    var s := w.store;
    var r := s.flight[revision];
    DecodeOfEncode(r.replacement);
    if Holds(s.live, r.generation) {
      var after := Stored(generation, Encode(r.replacement));
      AcceptRemovesPhotos(s, revision, after);
      forall c | 0 <= c < |w.clients| && IsRemoving(w.clients[c].phase)
        ensures HadPhoto(Land(s, revision, generation).history, w.clients[c].expected)
      {
        assert ClientRemovesPhoto(s.history, w.clients[c]);
        PhotoStays(s.history, generation, after.contents, w.clients[c].expected);
      }
    }
  }

  /** A client goes on to remove only what it read as a photo. */
  lemma OnlyAPhotoIsRemoved(k: Client, purpose: Purpose, stored: Option<Stored>, uuid: string)
    requires PurposeValid(purpose) && AfterRead(k, purpose, stored, uuid).Reloading? && k.op == Remove
    ensures stored.Some? && ShowsPhoto(stored.value.contents, k.expected)
  {
  }

  lemma SeenPhotoIsKnown(s: Store, k: Client, stored: Option<Stored>, replacement: Snapshot)
    requires PurposeInv(s, k, Check) && replacement.photo == k.photo
    requires k.op == Remove ==> stored.Some? && ShowsPhoto(stored.value.contents, k.expected)
    requires stored.Some? ==>
      && stored.value.generation in s.history && stored.value.contents == s.history[stored.value.generation]
    ensures ClientRemovesPhoto(s.history, k.(phase := Reloading(Swap(replacement))))
  {
    if replacement.photo.None? {
      assert ShowsPhoto(s.history[stored.value.generation], k.expected);
    }
  }

  lemma SendRemovesPhotos(s: Store, r: Request)
    requires StoreRemovesPhotos(s) && (r.replacement.photo.None? ==> HadPhoto(s.history, r.expected))
    ensures StoreRemovesPhotos(Send(s, r))
  {
    var t := Send(s, r);
    assert t.log == s.log && t.history == s.history && t.initial == s.initial;
    assert HistoryIsKnown(t);
  }

  lemma MintRemovesPhotos(s: Store, uuid: string)
    requires StoreRemovesPhotos(s)
    ensures StoreRemovesPhotos(Mint(s, uuid))
  {
    assert HistoryIsKnown(Mint(s, uuid));
  }

  lemma FinishReadRemovesPhotos(w: World, c: nat, stored: Option<Stored>, purpose: Purpose, uuid: string)
    requires RemovesPhotos(w) && IsClient(w, c) && PurposeValid(purpose) && PurposeInv(w.store, w.clients[c], purpose)
    requires purpose.Swap? && purpose.replacement.photo.None? ==> HadPhoto(w.store.history, w.clients[c].expected)
    requires stored.Some? ==>
      && stored.value.generation in w.store.history
      && stored.value.contents == w.store.history[stored.value.generation]
    ensures RemovesPhotos(FinishRead(w, c, stored, purpose, uuid))
  {
    var next, x := AfterRead(w.clients[c], purpose, stored, uuid), FinishRead(w, c, stored, purpose, uuid);
    if next.Reloading? {
      OnlyACheckMints(w.clients[c], purpose, stored, uuid);
      if w.clients[c].op == Remove { OnlyAPhotoIsRemoved(w.clients[c], purpose, stored, uuid); }
      SeenPhotoIsKnown(w.store, w.clients[c], stored, next.purpose.replacement);
      MintRemovesPhotos(w.store, uuid);
    } else if next.Sent? {
      OnlyASwapSends(w.clients[c], purpose, stored, uuid);
      SendRemovesPhotos(w.store, Request(w.clients[c].expected, GenerationOf(stored), purpose.replacement));
    } else {
      OtherReadsAreFinal(w.clients[c], purpose, stored, uuid);
    }
    forall i | 0 <= i < |x.clients| ensures ClientRemovesPhoto(x.store.history, x.clients[i]) {
      assert i != c ==> x.clients[i] == w.clients[i];
    }
  }

  lemma StepRemovesPhotos(w: World, e: Event)
    requires Inv(w) && RemovesPhotos(w) && Enabled(w, e)
    ensures RemovesPhotos(Step(w, e))
  {
    match e
    case ReloadFindsNothing(c, verified, uuid) =>
      assert ClientRemovesPhoto(w.store.history, w.clients[c]) && ClientInv(w.store, w.clients[c]);
      if verified { FinishReadRemovesPhotos(w, c, None, w.clients[c].phase.purpose, uuid); }
    case DownloadSucceeds(c, uuid) =>
      assert ClientRemovesPhoto(w.store.history, w.clients[c]) && ClientInv(w.store, w.clients[c]);
      var pinned := w.clients[c].phase.generation;
      var stored := Some(Stored(pinned, w.store.history[pinned]));
      FinishReadRemovesPhotos(w, c, stored, w.clients[c].phase.purpose, uuid);
    case Lands(revision, generation) => LandRemovesPhotos(w, revision, generation);
    case _ => LocalStepRemovesPhotos(w, e);
  }

  lemma LocalStepRemovesPhotos(w: World, e: Event)
    requires RemovesPhotos(w) && Enabled(w, e) && IsLocal(e)
    ensures RemovesPhotos(Step(w, e))
  {
    var x := Step(w, e);
    forall i | 0 <= i < |x.clients| ensures ClientRemovesPhoto(x.store.history, x.clients[i]) {
      assert ClientRemovesPhoto(w.store.history, w.clients[i]);
    }
  }

  lemma InitialRemovesPhotos(w: World)
    requires Initial(w)
    ensures RemovesPhotos(w)
  {
  }

  lemma {:induction false} RunRemovesPhotos(w: World, events: seq<Event>)
    requires Inv(w) && RemovesPhotos(w) && IsRun(w, events)
    ensures RemovesPhotos(Run(w, events))
    decreases |events|
  {
    if events != [] {
      StepKeepsInv(w, events[0]);
      StepRemovesPhotos(w, events[0]);
      RunRemovesPhotos(Step(w, events[0]), events[1..]);
    }
  }

  /** In every run a stored tombstone replaced an object with a photo, and one revision names one snapshot. */
  lemma TombstonesReplacePhotos(w: World, events: seq<Event>)
    requires Initial(w) && IsRun(w, events)
    ensures
      var log := Run(w, events).store.log;
      forall i :: 0 <= i < |log| && log[i].replacement.photo.None? ==>
        && log[i].before.Some? && Decode(log[i].before.value.contents).Some?
        && Decode(log[i].before.value.contents).value.photo.Some?
    ensures RevisionsNameOne(Run(w, events).store.history)
  {
    InitialInv(w);
    InitialRemovesPhotos(w);
    RunRemovesPhotos(w, events);
    var log := Run(w, events).store.log;
    forall i | 0 <= i < |log| && log[i].replacement.photo.None?
      ensures log[i].before.Some? && Decode(log[i].before.value.contents).Some?
      ensures Decode(log[i].before.value.contents).value.photo.Some?
    {
      assert ReplacedAPhoto(log[i]);
    }
  }

  // ----- requests that write nothing -----

  lemma ReadableFits(contents: Bytes)
    requires Decode(contents).Some?
    ensures 1 <= |contents| <= MAX_OBJECT_BYTES
  {
    EncodeOfDecode(contents);
    DecodeOfEncode(Decode(contents).value);
  }

  /** Why a read is the last one: it cannot be read, it shows another revision, or nothing is left to remove. */
  lemma WhyAReadIsTheLast(k: Client, purpose: Purpose, stored: Option<Stored>, uuid: string)
    requires PurposeValid(purpose) && (stored.Some? ==> stored.value.generation >= 1)
    ensures
      var next, actual := AfterRead(k, purpose, stored, uuid), RevisionOf(stored);
      && (next == Done(Unavailable(Dropped(purpose))) <==> actual.None?)
      && (next == Done(Refused(Dropped(purpose))) <==> actual.Some? && actual.value != k.expected)
      && (next.Done? && next.outcome.Kept? <==>
            && purpose.Check? && k.op == Remove && actual == Some(k.expected)
            && (stored.Some? ==> Decode(stored.value.contents).value.photo.None?))
      && (next.Done? && next.outcome.Kept? ==> next.outcome.revision == k.expected)
  {
    if stored.Some? && Decode(stored.value.contents).Some? { ReadableFits(stored.value.contents); }
    if purpose.Swap? { DecodeOfEncode(purpose.replacement); }
  }

  /** The world with the client at rest and nothing stored, minted or sent. */
  function Ended(w: World, c: nat, op: Operation, expected: string, outcome: Outcome): World
    requires IsClient(w, c)
  {
    w.(clients := w.clients[c := Client(op, expected, None, Done(outcome))])
  }

  /**
   Undisturbed, a request that has nothing to write leaves the store as it is: a removal of an absent
   object or a tombstone at its current revision is answered with that revision, an outdated or
   unreadable revision is refused, an unreadable object is unavailable, and a bad upload is rejected.
   */
  lemma UndisturbedRequestWritesNothing(
      w: World, c: nat, op: Operation, expected: string, photo: Option<Bytes>, uuid: string)
    returns (events: seq<Event>, outcome: Outcome)
    requires Inv(w) && IsClient(w, c) && (w.clients[c].phase.Idle? || w.clients[c].phase.Done?)
    requires (op == Remove ==> photo.None?) && !Writes(w.store, op, expected, photo) && Fresh(w.store, uuid)
    ensures IsRun(w, events) && Run(w, events) == Ended(w, c, op, expected, outcome)
    ensures outcome.Kept? <==> op == Remove && RevisionOf(w.store.live) == Some(expected)
    ensures outcome.Kept? ==> outcome == Kept(expected)
    ensures outcome == Rejected <==> op == Replace && RevisionOf(w.store.live) == Some(expected)
    ensures outcome == Unavailable(None) <==>
      RevisionOf(w.store.live).None? && (expected == ABSENT || ValidRevision(expected))
    ensures !outcome.Kept? && !outcome.Rejected? && !outcome.Unavailable? ==> outcome == Refused(None)
  {
    CurrentIsRequestable(w.store, expected);
    var start := Start(c, op, expected);
    if expected != ABSENT && !ValidRevision(expected) {
      RunFrom(w, start, []);
      return [start] + [], Refused(None);
    }
    var purpose := if op == Replace then Preflight else Check;
    var k := Client(op, expected, None, Reloading(purpose));
    var m := Step(w, start);
    assert m == w.(clients := w.clients[c := k]);
    WhyAReadIsTheLast(k, purpose, w.store.live, uuid);
    var rest;
    rest, outcome := FirstReadWritesNothing(m, c, k, purpose, photo, uuid);
    RunFrom(w, start, rest);
    events := [start] + rest;
    assert Ended(m, c, op, expected, outcome) == Ended(w, c, op, expected, outcome);
  }

  lemma FirstReadWritesNothing(m: World, c: nat, k: Client, purpose: Purpose, photo: Option<Bytes>, uuid: string)
    returns (events: seq<Event>, outcome: Outcome)
    requires IsClient(m, c) && m.clients[c] == k && k.phase == Reloading(purpose) && k.photo.None?
    requires purpose == (if k.op == Replace then Preflight else Check)
    requires ObjectInv(m.store) && Fresh(m.store, uuid)
    requires (k.op == Remove ==> photo.None?) && !Writes(m.store, k.op, k.expected, photo)
    ensures IsRun(m, events) && Run(m, events) == Ended(m, c, k.op, k.expected, outcome)
    ensures
      var next := AfterRead(k, purpose, m.store.live, uuid);
      if next.Done? then outcome == next.outcome
      else k.op == Replace && RevisionOf(m.store.live) == Some(k.expected) && outcome == Rejected
  {
    var read := ReadsTheLive(m, c, purpose, uuid);
    WhyAReadIsTheLast(k, purpose, m.store.live, uuid);
    var next := AfterRead(k, purpose, m.store.live, uuid);
    if next.Done? {
      assert FinishRead(m, c, m.store.live, purpose, uuid) == Ended(m, c, k.op, k.expected, next.outcome);
      return read, next.outcome;
    }
    ExpectedReadGoesOn(m.store, k, purpose, uuid);
    var n, upload := Run(m, read), UploadEnds(c, photo);
    RunFrom(n, upload, []);
    RunConcat(m, read, n, [upload] + []);
    assert Step(n, upload) == Ended(m, c, k.op, k.expected, Rejected);
    return read + ([upload] + []), Rejected;
  }
}
