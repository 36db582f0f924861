/** The content view (`App` in src/App.jsx): the profile form, the focus
    category, the routines and tips of that category, and the two creation
    forms. Every network call is split into a Begin method, which does what
    the handler does before its first `await` and returns what it sends, and
    a Complete method, which takes the outcome of the call and does the rest
    of the handler. */
module ContentView {
  import opened Wrappers
  import opened Text
  import opened Steps

  /** The six focus areas of the `categories` list. */
  datatype Category = Skin | Hair | Style | Fitness | Sleep | Confidence

  datatype Profile = Profile(name: string, email: string, skinType: string, hairType: string, styleVibe: string)

  const BlankProfile := Profile("", "", "", "", "")

  /** The routine form: a title and a free-text box with one step per line. */
  datatype RoutineDraft = RoutineDraft(title: string, stepsText: string)

  const BlankRoutineDraft := RoutineDraft("", "")

  datatype TipDraft = TipDraft(title: string, body: string)

  const BlankTipDraft := TipDraft("", "")

  /** Records as the server lists them; the view only stores and shows them. */
  datatype Routine = Routine(id: string, title: string, steps: seq<string>, category: string, ownerEmail: Option<string>)

  datatype Tip = Tip(id: string, category: string, title: string, body: string, tags: seq<string>)

  /** A parsed JSON body: an array of records, or anything else. */
  datatype Body<T> = JsonArray(items: seq<T>) | NotArray

  /** The two reads of a refresh either both deliver a parsed body, or one of
      the requests or one of the two `json()` calls throws. */
  datatype RefreshOutcome = BothParsed(routinesBody: Body<Routine>, tipsBody: Body<Tip>) | ReadThrew

  /** A profile save either gets a response whose body parses, carrying the
      `ok` flag and the body's `detail`, or throws (no response, or a body
      that is not JSON). */
  datatype SaveOutcome = SaveResponse(ok: bool, detail: Option<string>) | SaveThrew

  datatype CreateOutcome = CreateResponse(ok: bool) | CreateThrew

  /** A refresh in flight: the category its two reads are scoped to, and
      whether the profile-status timer is armed when it finishes (the refresh
      that a successful profile save awaits). */
  datatype RefreshRequest = RefreshRequest(category: Category, armsStatusTimer: bool)

  /** A profile save in flight: the profile sent, and the category that the
      refresh after a successful save is scoped to. */
  datatype SaveRequest = SaveRequest(profile: Profile, category: Category)

  datatype RoutinePayload = RoutinePayload(title: string, steps: seq<string>, category: Category, ownerEmail: Option<string>)

  datatype TipPayload = TipPayload(category: Category, title: string, body: string, tags: seq<string>)

  const Saving := "Saving..."
  const Saved := "Saved \U{2713}"
  const Failed := "Failed"
  const NetworkError := "Network error"

  /** `Array.isArray(data) ? data : []`. */
  function ArrayOrEmpty<T>(body: Body<T>): seq<T> {
    match body
    case JsonArray(items) => items
    case NotArray => []
  }

  /** The body of `POST /api/routines`: the title as typed, the derived
      steps, the active category, and the owner's email only when there is
      one (`profile.email || undefined`). */
  function RoutinePayloadFor(draft: RoutineDraft, category: Category, email: string): RoutinePayload {
    RoutinePayload(draft.title, DeriveSteps(draft.stepsText), category, if email == [] then None else Some(email))
  }

  /** The body of `POST /api/tips`: the tags are always empty. */
  function TipPayloadFor(draft: TipDraft, category: Category): TipPayload {
    TipPayload(category, draft.title, draft.body, [])
  }

  /** All the state of the view, as one value. */
  datatype ContentState = ContentState(
    activeCat: Category,
    profile: Profile,
    profileStatus: string,
    statusTimers: nat,
    routines: seq<Routine>,
    tips: seq<Tip>,
    loading: bool,
    newRoutine: RoutineDraft,
    creating: bool,
    newTip: TipDraft,
    creatingTip: bool)

  class ContentView {
    var activeCat: Category
    var profile: Profile
    /** The text shown beside the Save button; empty shows nothing. */
    var profileStatus: string
    /** Timers that will clear `profileStatus` and have not fired yet. */
    var statusTimers: nat
    var routines: seq<Routine>
    var tips: seq<Tip>
    var loading: bool
    var newRoutine: RoutineDraft
    var creating: bool
    var newTip: TipDraft
    var creatingTip: bool

    ghost function State(): ContentState
      reads this
    {
      ContentState(activeCat, profile, profileStatus, statusTimers, routines, tips, loading,
                   newRoutine, creating, newTip, creatingTip)
    }

    /** The initial state of every `useState` hook. */
    constructor ()
      ensures State() == ContentState(Skin, BlankProfile, "", 0, [], [], false,
                                      BlankRoutineDraft, false, BlankTipDraft, false)
    {
      activeCat := Skin;
      profile := BlankProfile;
      profileStatus := "";
      statusTimers := 0;
      routines := [];
      tips := [];
      loading := false;
      newRoutine := BlankRoutineDraft;
      creating := false;
      newTip := BlankTipDraft;
      creatingTip := false;
    }

    /** A click on a category button. The effect keyed on `activeCat` starts
        a refresh for the new category; choosing the active category again
        changes nothing and starts nothing. */
    method SelectCategory(c: Category) returns (refresh: Option<RefreshRequest>)
      modifies this
      ensures c == old(activeCat) ==> refresh == None && State() == old(State())
      ensures c != old(activeCat) ==>
        refresh == Some(RefreshRequest(c, false))
        && State() == old(State()).(activeCat := c, loading := true)
    {
      if c == activeCat {
        refresh := None;
      } else {
        activeCat := c;
        var request := Refresh();
        refresh := Some(request);
      }
    }

    /** `fetchData` up to its `await`: the view shows the loading state and
        asks for the routines and the tips of the active category. It runs
        on mount, on a category change, on a Refresh click and after a
        successful save or creation. */
    method Refresh() returns (refresh: RefreshRequest)
      modifies this
      ensures refresh == RefreshRequest(activeCat, false)
      ensures State() == old(State()).(loading := true)
    {
      loading := true;
      refresh := RefreshRequest(activeCat, false);
    }

    /** The rest of `fetchData`. When both bodies parse, each collection
        becomes its body if that is an array and empty otherwise; when
        anything throws, both collections stay as they were. Loading ends in
        every case. */
    method CompleteRefresh(request: RefreshRequest, outcome: RefreshOutcome)
      modifies this
      ensures !loading
      ensures outcome.BothParsed? ==>
        routines == ArrayOrEmpty(outcome.routinesBody) && tips == ArrayOrEmpty(outcome.tipsBody)
      ensures outcome.ReadThrew? ==> routines == old(routines) && tips == old(tips)
      ensures statusTimers == old(statusTimers) + (if request.armsStatusTimer then 1 else 0)
      ensures State() == old(State()).(routines := routines, tips := tips, loading := false,
                                       statusTimers := statusTimers)
    {
      if outcome.BothParsed? {
        routines := ArrayOrEmpty(outcome.routinesBody);
        tips := ArrayOrEmpty(outcome.tipsBody);
      }
      loading := false;
      if request.armsStatusTimer {
        statusTimers := statusTimers + 1;
      }
    }

    /** The profile inputs and selects. */
    method EditProfile(p: Profile)
      modifies this
      ensures State() == old(State()).(profile := p)
    {
      profile := p;
    }

    /** The title input and the steps box of the routine form. */
    method EditRoutineDraft(d: RoutineDraft)
      modifies this
      ensures State() == old(State()).(newRoutine := d)
    {
      newRoutine := d;
    }

    /** The title input and the body box of the tip form. */
    method EditTipDraft(d: TipDraft)
      modifies this
      ensures State() == old(State()).(newTip := d)
    {
      newTip := d;
    }

    /** `saveProfile` up to its `await`: the status reads "Saving..." and the
        whole profile is sent; the profile itself is untouched. */
    method BeginSaveProfile() returns (request: SaveRequest)
      modifies this
      ensures request == SaveRequest(old(profile), old(activeCat))
      ensures profileStatus == Saving && profile == old(profile)
      ensures State() == old(State()).(profileStatus := Saving)
    {
      profileStatus := Saving;
      request := SaveRequest(profile, activeCat);
    }

    /** The rest of `saveProfile`. A successful save shows "Saved ✓" and
        starts the refresh the handler awaits, whose completion arms the
        clearing timer; a refused save shows the server's `detail`, or
        "Failed" when there is none, and one that throws shows "Network
        error", both arming the timer at once. The status is never empty
        afterwards and the profile is never changed. */
    method CompleteSaveProfile(request: SaveRequest, outcome: SaveOutcome) returns (refresh: Option<RefreshRequest>)
      modifies this
      ensures profileStatus != [] && profile == old(profile)
      ensures outcome.SaveResponse? && outcome.ok ==>
        profileStatus == Saved
        && refresh == Some(RefreshRequest(request.category, true))
        && State() == old(State()).(profileStatus := Saved, loading := true)
      ensures outcome.SaveResponse? && !outcome.ok ==>
        profileStatus == OrElse(outcome.detail, Failed)
        && refresh == None
        && State() == old(State()).(profileStatus := profileStatus, statusTimers := old(statusTimers) + 1)
      ensures outcome.SaveThrew? ==>
        refresh == None
        && State() == old(State()).(profileStatus := NetworkError, statusTimers := old(statusTimers) + 1)
    {
      match outcome
      case SaveResponse(ok, detail) =>
        if ok {
          profileStatus := Saved;
          loading := true;
          refresh := Some(RefreshRequest(request.category, true));
        } else {
          profileStatus := OrElse(detail, Failed);
          statusTimers := statusTimers + 1;
          refresh := None;
        }
      case SaveThrew =>
        profileStatus := NetworkError;
        statusTimers := statusTimers + 1;
        refresh := None;
    }

    /** The two-second timer fires and clears the status, whatever it shows
        by then. */
    method StatusTimerFired()
      requires statusTimers > 0
      modifies this
      ensures State() == old(State()).(profileStatus := "", statusTimers := old(statusTimers) - 1)
    {
      profileStatus := "";
      statusTimers := statusTimers - 1;
    }

    /** `createRoutine` up to its `await`. A blank title sends nothing and
        changes nothing. Otherwise the form is busy and the payload is built
        from the draft, the active category and the profile's email. The
        button is disabled while a creation is in flight. */
    method BeginCreateRoutine() returns (sent: Option<RoutinePayload>)
      requires !creating
      modifies this
      ensures IsBlank(old(newRoutine.title)) ==> sent == None && State() == old(State())
      ensures !IsBlank(old(newRoutine.title)) ==>
        sent == Some(RoutinePayloadFor(old(newRoutine), old(activeCat), old(profile.email)))
        && State() == old(State()).(creating := true)
      ensures sent.Some? ==>
        && sent.value.title == old(newRoutine.title)
        && sent.value.category == old(activeCat)
        && (sent.value.ownerEmail == None <==> old(profile.email) == [])
        && (sent.value.ownerEmail.Some? ==> sent.value.ownerEmail.value == old(profile.email))
        && sent.value.steps == DeriveSteps(old(newRoutine.stepsText))
        && (forall i :: 0 <= i < |sent.value.steps| ==> IsStep(sent.value.steps[i]))
    {
      if IsBlank(newRoutine.title) {
        sent := None;
        return;
      }
      creating := true;
      sent := Some(RoutinePayloadFor(newRoutine, activeCat, profile.email));
    }

    /** The rest of `createRoutine`. An ok response clears the draft and
        starts a refresh scoped to the category the routine was sent with;
        anything else keeps the draft as it now is. The form is free again in
        every case. */
    method CompleteCreateRoutine(sent: RoutinePayload, outcome: CreateOutcome) returns (refresh: Option<RefreshRequest>)
      modifies this
      ensures !creating
      ensures outcome == CreateResponse(true) ==>
        refresh == Some(RefreshRequest(sent.category, false))
        && State() == old(State()).(newRoutine := BlankRoutineDraft, creating := false, loading := true)
      ensures outcome != CreateResponse(true) ==>
        refresh == None && State() == old(State()).(creating := false)
    {
      if outcome == CreateResponse(true) {
        newRoutine := BlankRoutineDraft;
        loading := true;
        refresh := Some(RefreshRequest(sent.category, false));
      } else {
        refresh := None;
      }
      creating := false;
    }

    /** `createTip` up to its `await`. A blank title or a blank body sends
        nothing and changes nothing. */
    method BeginCreateTip() returns (sent: Option<TipPayload>)
      requires !creatingTip
      modifies this
      ensures IsBlank(old(newTip.title)) || IsBlank(old(newTip.body)) ==>
        sent == None && State() == old(State())
      ensures !IsBlank(old(newTip.title)) && !IsBlank(old(newTip.body)) ==>
        sent == Some(TipPayloadFor(old(newTip), old(activeCat)))
        && State() == old(State()).(creatingTip := true)
      ensures sent.Some? ==>
        sent.value.category == old(activeCat) && sent.value.tags == []
        && sent.value.title == old(newTip.title) && sent.value.body == old(newTip.body)
    {
      if IsBlank(newTip.title) || IsBlank(newTip.body) {
        sent := None;
        return;
      }
      creatingTip := true;
      sent := Some(TipPayloadFor(newTip, activeCat));
    }

    /** The rest of `createTip`, handled as for a routine. */
    method CompleteCreateTip(sent: TipPayload, outcome: CreateOutcome) returns (refresh: Option<RefreshRequest>)
      modifies this
      ensures !creatingTip
      ensures outcome == CreateResponse(true) ==>
        refresh == Some(RefreshRequest(sent.category, false))
        && State() == old(State()).(newTip := BlankTipDraft, creatingTip := false, loading := true)
      ensures outcome != CreateResponse(true) ==>
        refresh == None && State() == old(State()).(creatingTip := false)
    {
      if outcome == CreateResponse(true) {
        newTip := BlankTipDraft;
        loading := true;
        refresh := Some(RefreshRequest(sent.category, false));
      } else {
        refresh := None;
      }
      creatingTip := false;
    }
  }
}
