/**
 Ownership of object URLs in the browser's profile-photo widget
 (frontend/static/assets/profile-photo.js). The asynchronous closures are split at their awaits;
 each piece is a method of `PhotoWidget`, and any interleaving of pieces is a run of `Step`.
 */
module PhotoWidget {
  import opened Wrappers

  /** An object URL, numbered in the order of creation. */
  type Url = nat

  datatype Status = Unknown | Available | Empty | Failed

  /** A call of `load`: its request number, and the fetch it awaits. */
  datatype LoadPhase = AwaitMetadata | AwaitImage(revision: string) | LoadOver
  datatype Load = Load(current: nat, phase: LoadPhase)

  /** A call of `save` or `remove`: awaiting its response, then the reload it starts. */
  datatype Mutation = AwaitResponse | AwaitReload(load: nat) | MutationOver

  /** The parsed metadata of the photo, or None for any failure to get it. */
  datatype Metadata = Metadata(available: bool, revision: string)

  datatype Widget = Widget(
    revision: string, status: Status, savedUrl: Option<Url>, previewUrl: Option<Url>,
    selected: bool, request: nat, busy: bool,
    loads: seq<Load>, mutations: seq<Mutation>,
    created: nat,          // URLs made so far: 0 .. created
    revoked: seq<Url>)     // calls of `URL.revokeObjectURL`, in order

  datatype Event =
    | LoadStarts
    | MetadataArrives(load: nat, reply: Option<Metadata>)
    | ImageArrives(load: nat, valid: bool)
    | Selects(valid: bool)
    | Cancels
    | SaveStarts
    | RemoveStarts(confirmed: bool)
    | ResponseArrives(mutation: nat, ok: bool)
    | ReloadEnds(mutation: nat)
    | Clears

  // ----- the pieces as functions -----

  function Revoked(revoked: seq<Url>, url: Option<Url>): seq<Url> {
    if url.None? then revoked else revoked + [url.value]
  }

  function Revoke(w: Widget, url: Option<Url>): Widget { w.(revoked := Revoked(w.revoked, url)) }

  function SetPreview(w: Widget, url: Option<Url>): Widget {
    Revoke(w, w.previewUrl).(previewUrl := url)
  }

  function BeginLoad(w: Widget): Widget {
    w.(request := w.request + 1, loads := w.loads + [Load(w.request + 1, AwaitMetadata)])
  }

  function EndLoad(w: Widget, l: nat): Widget
    requires l < |w.loads|
  {
    w.(loads := w.loads[l := w.loads[l].(phase := LoadOver)])
  }

  /** The catch branch: only the latest load may report that the photo is unavailable. */
  function LoadFails(w: Widget, l: nat): Widget
    requires l < |w.loads|
  {
    var over := EndLoad(w, l);
    if w.loads[l].current != w.request then over else over.(status := Failed)
  }

  /** The last piece of a load: an overtaken one gives its URL back, the latest one installs it. */
  function LoadSucceeds(w: Widget, l: nat, image: bool, revision: string): Widget
    requires l < |w.loads|
  {
    var next := if image then Some(w.created) else None;
    var over := EndLoad(w, l).(created := if image then w.created + 1 else w.created);
    if w.loads[l].current != w.request then Revoke(over, next)
    else
      Revoke(over, w.savedUrl).(
        savedUrl := next, revision := revision, status := if image then Available else Empty)
  }

  function Cancel(w: Widget): Widget { SetPreview(w.(selected := false), None) }

  predicate Enabled(w: Widget, e: Event) {
    match e
    case MetadataArrives(l, _) => l < |w.loads| && w.loads[l].phase.AwaitMetadata?
    case ImageArrives(l, _) => l < |w.loads| && w.loads[l].phase.AwaitImage?
    case ResponseArrives(m, _) => m < |w.mutations| && w.mutations[m].AwaitResponse?
    case ReloadEnds(m) =>
      && m < |w.mutations| && w.mutations[m].AwaitReload?
      && w.mutations[m].load < |w.loads| && w.loads[w.mutations[m].load].phase.LoadOver?
    case _ => true
  }

  function Step(w: Widget, e: Event): Widget
    requires Enabled(w, e)
  {
    match e
    case LoadStarts => BeginLoad(w)
    case MetadataArrives(l, reply) =>
      if reply.None? then LoadFails(w, l)
      else if reply.value.available then
        w.(loads := w.loads[l := w.loads[l].(phase := AwaitImage(reply.value.revision))])
      else LoadSucceeds(w, l, false, reply.value.revision)
    case ImageArrives(l, valid) =>
      if valid then LoadSucceeds(w, l, true, w.loads[l].phase.revision) else LoadFails(w, l)
    case Selects(valid) =>
      var cleared := Cancel(w);
      if valid then SetPreview(cleared.(selected := true, created := w.created + 1), Some(w.created)) else cleared
    case Cancels => Cancel(w)
    case SaveStarts =>
      if !w.selected || w.busy || w.status.Failed? then w
      else w.(busy := true, mutations := w.mutations + [AwaitResponse])
    case RemoveStarts(confirmed) =>
      if !confirmed || w.busy || !w.status.Available? then w
      else w.(busy := true, mutations := w.mutations + [AwaitResponse])
    case ResponseArrives(m, ok) =>
      if ok then BeginLoad(Cancel(w)).(mutations := w.mutations[m := AwaitReload(|w.loads|)])
      else w.(busy := false, mutations := w.mutations[m := MutationOver])
    case ReloadEnds(m) => w.(busy := false, mutations := w.mutations[m := MutationOver])
    case Clears =>
      var gone := Revoke(w, w.savedUrl).(
        savedUrl := None, request := w.request + 1, status := Unknown, revision := "absent");
      Cancel(gone)
  }

  const START := Widget("absent", Unknown, None, None, false, 0, false, [], [], 0, [])

  // ----- the widget itself -----

  class PhotoWidget {
    var revision: string
    var status: Status
    var savedUrl: Option<Url>
    var previewUrl: Option<Url>
    var selected: bool
    var request: nat
    var busy: bool
    var loads: seq<Load>
    var mutations: seq<Mutation>
    var created: nat
    var revoked: seq<Url>

    function State(): Widget reads this {
      Widget(revision, status, savedUrl, previewUrl, selected, request, busy, loads, mutations, created, revoked)
    }

    /** The live URLs are the owned ones, one mutation is under way at most, and loads are numbered. */
    ghost predicate Valid() reads this { Inv(State()) }

    constructor ()
      ensures Valid() && State() == START
    {
      revision, status, savedUrl, previewUrl, selected := "absent", Unknown, None, None, false;
      request, busy, loads, mutations, created, revoked := 0, false, [], [], 0, [];
    }

    // the parts of the pieces below, between which the invariant need not hold

    method CreateObjectUrl() returns (url: Url)
      modifies this`created
      ensures url == old(created) && created == url + 1
    {
      url := created;
      created := created + 1;
    }

    method RevokeObjectUrl(url: Option<Url>)
      modifies this`revoked
      ensures State() == Revoke(old(State()), url)
    {
      if url.Some? { revoked := revoked + [url.value]; }
    }

    method ReplacePreview(url: Option<Url>)
      modifies this`revoked, this`previewUrl
      ensures State() == SetPreview(old(State()), url)
    {
      RevokeObjectUrl(previewUrl);
      previewUrl := url;
    }

    method FailLoad(l: nat)
      requires l < |loads|
      modifies this`loads, this`status
      ensures State() == LoadFails(old(State()), l)
    {
      var current := loads[l].current;
      loads := loads[l := loads[l].(phase := LoadOver)];
      if current == request { status := Failed; }
    }

    method CompleteLoad(l: nat, image: bool, newRevision: string)
      requires l < |loads|
      modifies this
      ensures State() == LoadSucceeds(old(State()), l, image, newRevision)
    {
      var nextUrl: Option<Url> := None;
      if image {
        var url := CreateObjectUrl();
        nextUrl := Some(url);
      }
      var current := loads[l].current;
      loads := loads[l := loads[l].(phase := LoadOver)];
      if current != request {
        RevokeObjectUrl(nextUrl);
        return;
      }
      RevokeObjectUrl(savedUrl);
      savedUrl, revision, status := nextUrl, newRevision, if image then Available else Empty;
    }

    // the pieces, each from one await to the next

    method StartLoad()
      requires Valid()
      modifies this`request, this`loads
      ensures Valid() && State() == Step(old(State()), LoadStarts)
    {
      StepKeepsInv(State(), LoadStarts);
      request := request + 1;
      loads := loads + [Load(request, AwaitMetadata)];
    }

    method OnMetadata(l: nat, reply: Option<Metadata>)
      requires Valid() && Enabled(State(), MetadataArrives(l, reply))
      modifies this
      ensures Valid() && State() == Step(old(State()), MetadataArrives(l, reply))
    {
      StepKeepsInv(State(), MetadataArrives(l, reply));
      if reply.None? {
        FailLoad(l);
      } else if reply.value.available {
        loads := loads[l := loads[l].(phase := AwaitImage(reply.value.revision))];
      } else {
        CompleteLoad(l, false, reply.value.revision);
      }
    }

    method OnImage(l: nat, valid: bool)
      requires Valid() && Enabled(State(), ImageArrives(l, valid))
      modifies this
      ensures Valid() && State() == Step(old(State()), ImageArrives(l, valid))
    {
      StepKeepsInv(State(), ImageArrives(l, valid));
      if valid {
        CompleteLoad(l, true, loads[l].phase.revision);
      } else {
        FailLoad(l);
      }
    }

    method Select(valid: bool)
      requires Valid()
      modifies this
      ensures Valid() && State() == Step(old(State()), Selects(valid))
    {
      StepKeepsInv(State(), Selects(valid));
      selected := false;
      ReplacePreview(None);
      if valid {
        selected := true;
        var url := CreateObjectUrl();
        ReplacePreview(Some(url));
      }
    }

    method CancelSelection()
      requires Valid()
      modifies this`selected, this`revoked, this`previewUrl
      ensures Valid() && State() == Step(old(State()), Cancels)
    {
      StepKeepsInv(State(), Cancels);
      selected := false;
      ReplacePreview(None);
    }

    method Save()
      requires Valid()
      modifies this`busy, this`mutations
      ensures Valid() && State() == Step(old(State()), SaveStarts)
    {
      StepKeepsInv(State(), SaveStarts);
      if !selected || busy || status.Failed? { return; }
      busy := true;
      mutations := mutations + [AwaitResponse];
    }

    method Remove(confirmed: bool)
      requires Valid()
      modifies this`busy, this`mutations
      ensures Valid() && State() == Step(old(State()), RemoveStarts(confirmed))
    {
      StepKeepsInv(State(), RemoveStarts(confirmed));
      if !confirmed || busy || !status.Available? { return; }
      busy := true;
      mutations := mutations + [AwaitResponse];
    }

    method OnResponse(m: nat, ok: bool)
      requires Valid() && Enabled(State(), ResponseArrives(m, ok))
      modifies this
      ensures Valid() && State() == Step(old(State()), ResponseArrives(m, ok))
    {
      StepKeepsInv(State(), ResponseArrives(m, ok));
      if ok {
        CancelSelection();
        var reload := |loads|;
        StartLoad();
        mutations := mutations[m := AwaitReload(reload)];
      } else {
        mutations := mutations[m := MutationOver];
        busy := false;
      }
    }

    method OnReloaded(m: nat)
      requires Valid() && Enabled(State(), ReloadEnds(m))
      modifies this`busy, this`mutations
      ensures Valid() && State() == Step(old(State()), ReloadEnds(m))
    {
      StepKeepsInv(State(), ReloadEnds(m));
      mutations := mutations[m := MutationOver];
      busy := false;
    }

    method Clear()
      requires Valid()
      modifies this
      ensures Valid() && State() == Step(old(State()), Clears)
    {
      StepKeepsInv(State(), Clears);
      request, status, revision, selected := request + 1, Unknown, "absent", false;
      RevokeObjectUrl(savedUrl);
      savedUrl := None;
      ReplacePreview(None);
    }
  }

  // ----- runs and their invariant -----

  predicate IsRun(w: Widget, events: seq<Event>)
    decreases |events|
  {
    events == [] || (Enabled(w, events[0]) && IsRun(Step(w, events[0]), events[1..]))
  }

  function Run(w: Widget, events: seq<Event>): Widget
    requires IsRun(w, events)
    decreases |events|
  {
    if events == [] then w else Run(Step(w, events[0]), events[1..])
  }

  /** A URL that was created and not revoked. */
  predicate Live(created: nat, revoked: seq<Url>, url: Url) { url < created && url !in revoked }

  /** The live URLs are exactly the owned ones, which differ; and none was revoked twice. */
  ghost predicate UrlsOk(saved: Option<Url>, preview: Option<Url>, created: nat, revoked: seq<Url>) {
    && (forall url: Url :: Live(created, revoked, url) <==> saved == Some(url) || preview == Some(url))
    && (saved.Some? ==> saved != preview)
    && (forall url: Url :: url in revoked ==> url < created)
    && (forall i, j :: 0 <= i < j < |revoked| ==> revoked[i] != revoked[j])
  }

  ghost predicate UrlInv(w: Widget) { UrlsOk(w.savedUrl, w.previewUrl, w.created, w.revoked) }

  lemma DropPreview(saved: Option<Url>, preview: Option<Url>, created: nat, revoked: seq<Url>)
    requires UrlsOk(saved, preview, created, revoked)
    ensures UrlsOk(saved, None, created, Revoked(revoked, preview))
  {
    if preview.Some? { assert Live(created, revoked, preview.value); }
  }

  lemma DropSaved(saved: Option<Url>, preview: Option<Url>, created: nat, revoked: seq<Url>)
    requires UrlsOk(saved, preview, created, revoked)
    ensures UrlsOk(None, preview, created, Revoked(revoked, saved))
  {
    if saved.Some? { assert Live(created, revoked, saved.value); }
  }

  /** A new URL may go into an empty field, or straight back. */
  lemma NewUrl(saved: Option<Url>, preview: Option<Url>, created: nat, revoked: seq<Url>)
    requires UrlsOk(saved, preview, created, revoked)
    ensures saved.None? ==> UrlsOk(Some(created), preview, created + 1, revoked)
    ensures preview.None? ==> UrlsOk(saved, Some(created), created + 1, revoked)
    ensures UrlsOk(saved, preview, created + 1, Revoked(revoked, Some(created)))
  {
    assert created !in revoked;
    assert saved.Some? ==> Live(created, revoked, saved.value);
    assert preview.Some? ==> Live(created, revoked, preview.value);
    forall url: Url ensures Live(created + 1, revoked, url) <==> Live(created, revoked, url) || url == created {
      if url == created { assert url !in revoked; }
    }
  }

  lemma CompletedLoadKeepsUrls(w: Widget, l: nat, image: bool, revision: string)
    requires UrlInv(w) && l < |w.loads|
    ensures UrlInv(LoadSucceeds(w, l, image, revision))
  {
    if w.loads[l].current != w.request {
      if image { NewUrl(w.savedUrl, w.previewUrl, w.created, w.revoked); }
    } else {
      DropSaved(w.savedUrl, w.previewUrl, w.created, w.revoked);
      if image { NewUrl(None, w.previewUrl, w.created, Revoked(w.revoked, w.savedUrl)); }
    }
  }

  lemma StepKeepsUrls(w: Widget, e: Event)
    requires UrlInv(w) && Enabled(w, e)
    ensures UrlInv(Step(w, e))
  {
    match e
    case MetadataArrives(l, reply) =>
      if reply.Some? { CompletedLoadKeepsUrls(w, l, false, reply.value.revision); }
    case ImageArrives(l, _) => CompletedLoadKeepsUrls(w, l, true, w.loads[l].phase.revision);
    case Selects(_) =>
      DropPreview(w.savedUrl, w.previewUrl, w.created, w.revoked);
      NewUrl(w.savedUrl, None, w.created, Revoked(w.revoked, w.previewUrl));
    case Cancels => DropPreview(w.savedUrl, w.previewUrl, w.created, w.revoked);
    case ResponseArrives(_, _) => DropPreview(w.savedUrl, w.previewUrl, w.created, w.revoked);
    case Clears =>
      DropSaved(w.savedUrl, w.previewUrl, w.created, w.revoked);
      DropPreview(None, w.previewUrl, w.created, Revoked(w.revoked, w.savedUrl));
    case _ =>
  }

  /** `busy` is set exactly while one mutation is under way. */
  ghost predicate OneMutation(busy: bool, mutations: seq<Mutation>) {
    && (busy <==> exists m :: 0 <= m < |mutations| && !mutations[m].MutationOver?)
    && (forall m, n :: 0 <= m < n < |mutations| ==> mutations[m].MutationOver? || mutations[n].MutationOver?)
  }

  /** No load carries a request number that was not handed out yet. */
  ghost predicate LoadsNumbered(loads: seq<Load>, request: nat) {
    forall l :: 0 <= l < |loads| ==> loads[l].current <= request
  }

  ghost predicate FlowInv(w: Widget) {
    OneMutation(w.busy, w.mutations) && LoadsNumbered(w.loads, w.request)
  }

  lemma BeginsMutation(mutations: seq<Mutation>)
    requires OneMutation(false, mutations)
    ensures OneMutation(true, mutations + [AwaitResponse])
  {
    assert !(mutations + [AwaitResponse])[|mutations|].MutationOver?;
  }

  lemma MovesMutation(mutations: seq<Mutation>, m: nat, next: Mutation)
    requires OneMutation(true, mutations) && m < |mutations| && !mutations[m].MutationOver?
    ensures OneMutation(!next.MutationOver?, mutations[m := next])
  {
    assert mutations[m := next][m] == next;
  }

  lemma StepKeepsOneMutation(w: Widget, e: Event)
    requires OneMutation(w.busy, w.mutations) && Enabled(w, e)
    ensures OneMutation(Step(w, e).busy, Step(w, e).mutations)
  {
    match e
    case SaveStarts => if !w.busy { BeginsMutation(w.mutations); }
    case RemoveStarts(_) => if !w.busy { BeginsMutation(w.mutations); }
    case ResponseArrives(m, ok) =>
      MovesMutation(w.mutations, m, if ok then AwaitReload(|w.loads|) else MutationOver);
    case ReloadEnds(m) => MovesMutation(w.mutations, m, MutationOver);
    case _ =>
  }

  lemma NewLoadIsNumbered(loads: seq<Load>, request: nat)
    requires LoadsNumbered(loads, request)
    ensures LoadsNumbered(loads, request + 1)
    ensures LoadsNumbered(loads + [Load(request + 1, AwaitMetadata)], request + 1)
  {
  }

  lemma PhaseKeepsNumbers(loads: seq<Load>, request: nat, l: nat, phase: LoadPhase)
    requires LoadsNumbered(loads, request) && l < |loads|
    ensures LoadsNumbered(loads[l := loads[l].(phase := phase)], request)
  {
  }

  lemma StepKeepsLoadsNumbered(w: Widget, e: Event)
    requires LoadsNumbered(w.loads, w.request) && Enabled(w, e)
    ensures LoadsNumbered(Step(w, e).loads, Step(w, e).request)
  {
    match e
    case LoadStarts => NewLoadIsNumbered(w.loads, w.request);
    case MetadataArrives(l, reply) =>
      if reply.Some? && reply.value.available {
        PhaseKeepsNumbers(w.loads, w.request, l, AwaitImage(reply.value.revision));
      } else {
        PhaseKeepsNumbers(w.loads, w.request, l, LoadOver);
      }
    case ImageArrives(l, _) => PhaseKeepsNumbers(w.loads, w.request, l, LoadOver);
    case ResponseArrives(_, ok) => if ok { NewLoadIsNumbered(w.loads, w.request); }
    case Clears => NewLoadIsNumbered(w.loads, w.request);
    case _ =>
  }

  lemma StepKeepsFlow(w: Widget, e: Event)
    requires FlowInv(w) && Enabled(w, e)
    ensures FlowInv(Step(w, e))
  {
    StepKeepsOneMutation(w, e);
    StepKeepsLoadsNumbered(w, e);
  }

  ghost predicate Inv(w: Widget) { UrlInv(w) && FlowInv(w) }

  lemma StepKeepsInv(w: Widget, e: Event)
    requires Inv(w) && Enabled(w, e)
    ensures Inv(Step(w, e))
  {
    StepKeepsUrls(w, e);
    StepKeepsFlow(w, e);
  }

  lemma {:induction false} RunKeepsInv(w: Widget, events: seq<Event>)
    requires Inv(w) && IsRun(w, events)
    ensures Inv(Run(w, events))
    decreases |events|
  {
    if events != [] {
      StepKeepsInv(w, events[0]);
      RunKeepsInv(Step(w, events[0]), events[1..]);
    }
  }

  // ----- what each piece does for the person before the screen -----

  /** The status tells whether a photo is shown, unless the last check failed or none was made. */
  ghost predicate StatusOk(w: Widget) {
    && (w.status.Available? ==> w.savedUrl.Some?)
    && (w.status.Empty? ==> w.savedUrl.None?)
  }

  lemma StepKeepsStatus(w: Widget, e: Event)
    requires StatusOk(w) && Enabled(w, e)
    ensures StatusOk(Step(w, e))
  {
  }

  lemma {:induction false} RunKeepsStatus(w: Widget, events: seq<Event>)
    requires StatusOk(w) && IsRun(w, events)
    ensures StatusOk(Run(w, events))
    decreases |events|
  {
    if events != [] {
      StepKeepsStatus(w, events[0]);
      RunKeepsStatus(Step(w, events[0]), events[1..]);
    }
  }

  /** In every run, "available" is said only of a photo that is there, and "empty" only without one. */
  lemma StatusIsTrue(events: seq<Event>)
    requires IsRun(START, events)
    ensures Run(START, events).status.Available? ==> Run(START, events).savedUrl.Some?
    ensures Run(START, events).status.Empty? ==> Run(START, events).savedUrl.None?
  {
    RunKeepsStatus(START, events);
  }

  predicate Ended(w: Widget, x: Widget, l: nat) {
    && l < |w.loads| && |x.loads| == |w.loads| && x.loads[l] == Load(w.loads[l].current, LoadOver)
    && forall k :: 0 <= k < |w.loads| && k != l ==> x.loads[k] == w.loads[k]
  }

  lemma NewLoadIsTheLatest(w: Widget)
    ensures
      var x := Step(w, LoadStarts);
      && x == w.(request := w.request + 1, loads := w.loads + [Load(w.request + 1, AwaitMetadata)])
      && !Overtaken(x, |w.loads|)
  {
  }

  /** What the load that is not overtaken installs: the image with the revision its metadata carried. */
  lemma LatestImageIsShown(w: Widget, l: nat)
    requires Enabled(w, ImageArrives(l, true)) && !Overtaken(w, l)
    ensures
      var x := Step(w, ImageArrives(l, true));
      && x.savedUrl == Some(w.created) && x.created == w.created + 1
      && x.revision == w.loads[l].phase.revision && x.status == Available
      && x.revoked == Revoked(w.revoked, w.savedUrl) && x.previewUrl == w.previewUrl && Ended(w, x, l)
  {
  }

  lemma LatestEmptyIsShown(w: Widget, l: nat, revision: string)
    requires Enabled(w, MetadataArrives(l, Some(Metadata(false, revision)))) && !Overtaken(w, l)
    ensures
      var x := Step(w, MetadataArrives(l, Some(Metadata(false, revision))));
      && x.savedUrl == None && x.created == w.created && x.revision == revision && x.status == Empty
      && x.revoked == Revoked(w.revoked, w.savedUrl) && x.previewUrl == w.previewUrl && Ended(w, x, l)
  {
  }

  /** Metadata of an available photo only starts the second fetch, and is remembered until it ends. */
  lemma AvailableIsFetched(w: Widget, l: nat, revision: string)
    requires Enabled(w, MetadataArrives(l, Some(Metadata(true, revision))))
    ensures
      var x := Step(w, MetadataArrives(l, Some(Metadata(true, revision))));
      x == w.(loads := w.loads[l := Load(w.loads[l].current, AwaitImage(revision))])
  {
  }

  /** A failed fetch of either kind leaves the image and its revision, and says so. */
  lemma LatestFailureIsShown(w: Widget, l: nat, e: Event)
    requires e == MetadataArrives(l, None) || e == ImageArrives(l, false)
    requires Enabled(w, e) && !Overtaken(w, l)
    ensures
      var x := Step(w, e);
      && x.savedUrl == w.savedUrl && x.revision == w.revision && x.previewUrl == w.previewUrl
      && x.created == w.created && x.revoked == w.revoked && x.status == Failed && Ended(w, x, l)
  {
  }

  /** Only a valid file is selected and previewed; whatever was previewed before is gone. */
  lemma SelectionIsPreviewed(w: Widget, valid: bool)
    requires UrlInv(w)
    ensures
      var x := Step(w, Selects(valid));
      && (x.selected <==> valid) && (x.previewUrl == if valid then Some(w.created) else None)
      && (w.previewUrl.Some? ==> w.previewUrl.value in x.revoked)
      && SameSaved(w, x) && x.loads == w.loads && x.mutations == w.mutations
  {
  }

  lemma CancelForgetsSelection(w: Widget)
    ensures
      var x := Step(w, Cancels);
      && !x.selected && x.previewUrl == None && (w.previewUrl.Some? ==> w.previewUrl.value in x.revoked)
      && SameSaved(w, x) && x.created == w.created && x.loads == w.loads && x.mutations == w.mutations
  {
  }

  predicate Starts(w: Widget, x: Widget) { |x.mutations| == |w.mutations| + 1 }

  /** A save starts exactly with a selection, alone, and unless the last check failed. */
  lemma SaveStartsExactly(w: Widget)
    ensures
      var x := Step(w, SaveStarts);
      && (Starts(w, x) <==> w.selected && !w.busy && w.status != Failed)
      && (Starts(w, x) ==> x == w.(busy := true, mutations := w.mutations + [AwaitResponse]))
      && (!Starts(w, x) ==> x == w)
  {
  }

  /** A removal starts exactly when confirmed, alone, and with a photo to remove. */
  lemma RemoveStartsExactly(w: Widget, confirmed: bool)
    ensures
      var x := Step(w, RemoveStarts(confirmed));
      && (Starts(w, x) <==> confirmed && !w.busy && w.status == Available)
      && (Starts(w, x) ==> x == w.(busy := true, mutations := w.mutations + [AwaitResponse]))
      && (!Starts(w, x) ==> x == w)
  {
  }

  /** A confirmed mutation forgets the selection and reloads, busy until that ends; a failed one keeps it. */
  lemma ResponseIsFollowed(w: Widget, m: nat, ok: bool)
    requires FlowInv(w) && Enabled(w, ResponseArrives(m, ok))
    ensures
      var x := Step(w, ResponseArrives(m, ok));
      && SameSaved(w, x) && |x.mutations| == |w.mutations|
      && (ok ==>
            && !x.selected && x.previewUrl == None && x.busy
            && x.loads == w.loads + [Load(x.request, AwaitMetadata)] && x.request == w.request + 1
            && x.mutations[m] == AwaitReload(|w.loads|))
      && (!ok ==>
            && x.selected == w.selected && x.previewUrl == w.previewUrl && !x.busy
            && x.loads == w.loads && x.request == w.request && x.mutations[m] == MutationOver)
  {
    assert !w.mutations[m].MutationOver?;
  }

  lemma ReloadFreesTheWidget(w: Widget, m: nat)
    requires Enabled(w, ReloadEnds(m))
    ensures
      var x := Step(w, ReloadEnds(m));
      x == w.(busy := false, mutations := w.mutations[m := MutationOver])
  {
  }

  /** A clear forgets everything that is shown, and gives both URLs back. */
  lemma ClearForgets(w: Widget)
    ensures
      var x := Step(w, Clears);
      && x.savedUrl == None && x.previewUrl == None && !x.selected
      && x.status == Unknown && x.revision == "absent" && x.request == w.request + 1
      && (w.savedUrl.Some? ==> w.savedUrl.value in x.revoked)
      && (w.previewUrl.Some? ==> w.previewUrl.value in x.revoked)
      && x.busy == w.busy && x.loads == w.loads && x.mutations == w.mutations
  {
  }

  // ----- what holds of every run -----

  /** The live URLs are exactly the non-null ones of the two fields; none is revoked twice or leaks. */
  lemma UrlsAreOwned(events: seq<Event>)
    requires IsRun(START, events)
    ensures UrlInv(Run(START, events))
  {
    RunKeepsInv(START, events);
  }

  /** At most one save or removal is under way, and the `busy` flag says when. */
  lemma OneMutationAtATime(events: seq<Event>, m: nat, n: nat)
    requires IsRun(START, events)
    requires m < |Run(START, events).mutations| && !Run(START, events).mutations[m].MutationOver?
    requires n < |Run(START, events).mutations| && !Run(START, events).mutations[n].MutationOver?
    ensures m == n && Run(START, events).busy
  {
    RunKeepsInv(START, events);
  }

  /** What a load overtaken by a later load or clear may still do: nothing to the saved image. */
  predicate SameSaved(w: Widget, x: Widget) {
    x.savedUrl == w.savedUrl && x.revision == w.revision && x.status == w.status
  }

  predicate Overtaken(w: Widget, l: nat) { l < |w.loads| && w.loads[l].current != w.request }

  lemma {:induction false} OvertakenForEver(w: Widget, events: seq<Event>, l: nat)
    requires FlowInv(w) && IsRun(w, events) && Overtaken(w, l)
    ensures Overtaken(Run(w, events), l)
    decreases |events|
  {
    if events != [] {
      StepKeepsFlow(w, events[0]);
      OvertakenForEver(Step(w, events[0]), events[1..], l);
    }
  }

  /** Starting a load, by hand or after a confirmed save or removal. */
  predicate StartsLoad(e: Event) { e.LoadStarts? || (e.ResponseArrives? && e.ok) }

  /** A new load, and a clear, overtake every load under way. */
  lemma NewLoadOvertakes(w: Widget, e: Event, l: nat)
    requires FlowInv(w) && Enabled(w, e) && l < |w.loads| && (StartsLoad(e) || e.Clears?)
    ensures Overtaken(Step(w, e), l)
  {
  }

  /** Once overtaken, a load never changes the saved image, however its fetches end. */
  lemma OvertakenLoadChangesNothing(w: Widget, events: seq<Event>, l: nat, e: Event)
    requires FlowInv(w) && IsRun(w, events) && Overtaken(w, l)
    requires Enabled(Run(w, events), e)
    requires (e.MetadataArrives? || e.ImageArrives?) && e.load == l
    ensures SameSaved(Run(w, events), Step(Run(w, events), e))
    ensures Step(Run(w, events), e).previewUrl == Run(w, events).previewUrl
  {
    OvertakenForEver(w, events, l);
  }

  /** After a clear no saved image reappears until another load is started. */
  lemma {:induction false} ClearedStaysCleared(w: Widget, events: seq<Event>)
    requires IsRun(w, events) && w.savedUrl == None
    requires forall l :: 0 <= l < |w.loads| ==> w.loads[l].current < w.request
    requires forall i :: 0 <= i < |events| ==> !StartsLoad(events[i])
    ensures Run(w, events).savedUrl == None
    decreases |events|
  {
    if events != [] {
      assert !StartsLoad(events[0]);
      ClearedStaysCleared(Step(w, events[0]), events[1..]);
    }
  }

  lemma ClearHidesThePhoto(before: seq<Event>, after: seq<Event>)
    requires IsRun(START, before)
    requires IsRun(Step(Run(START, before), Clears), after)
    requires forall i :: 0 <= i < |after| ==> !StartsLoad(after[i])
    ensures Run(Step(Run(START, before), Clears), after).savedUrl == None
  {
    RunKeepsInv(START, before);
    ClearedStaysCleared(Step(Run(START, before), Clears), after);
  }
}
