/**
 * The submission form of app/post-sighting/page.tsx: four text fields, a position picked on the
 * map, and a submit that either raises an alert or marks the form as submitting and, once the
 * simulated delay has passed, logs the sighting and navigates to the thank-you page.
 */
module PostSighting {
  import opened SightingTypes

  const AlertText: string := "Please select a location on the map by clicking where the sighting occurred."
  const ThankYouRoute: string := "/thank-you"

  /** The `name` attributes of the form's inputs. */
  datatype Field = DateField | TimeField | TypeField | NotesField

  datatype FormData = FormData(date: string, time: string, sightingType: string, notes: string)

  /** `[lat, lng]` of a map click. */
  datatype LatLng = LatLng(lat: real, lng: real)

  /** The `{ ...formData, position }` a pending submit logs once its delay has passed. */
  datatype Submission = Submission(form: FormData, position: LatLng)

  /**
   * The component's state (`formData`, `position`, `isSubmitting`) together with the submits
   * waiting on their delay and what has happened outside it: alerts shown, sightings logged,
   * routes pushed.
   */
  datatype Form = Form(
    formData: FormData,
    position: Option<LatLng>,
    isSubmitting: bool,
    pending: seq<Submission>,
    alerts: seq<string>,
    log: seq<Submission>,
    navigations: seq<string>)

  function Get(data: FormData, field: Field): string {
    match field
    case DateField => data.date
    case TimeField => data.time
    case TypeField => data.sightingType
    case NotesField => data.notes
  }

  /** `{ ...formData, [name]: value }`. */
  function Set(data: FormData, field: Field, value: string): FormData {
    match field
    case DateField => data.(date := value)
    case TimeField => data.(time := value)
    case TypeField => data.(sightingType := value)
    case NotesField => data.(notes := value)
  }

  function Initial(): Form {
    Form(FormData("", "", "", ""), None, false, [], [], [], [])
  }

  /** `handleInputChange`. */
  function InputChanged(st: Form, field: Field, value: string): Form {
    st.(formData := Set(st.formData, field, value))
  }

  /** The click handler of `LocationMarker`. */
  function Clicked(st: Form, lat: real, lng: real): Form {
    st.(position := Some(LatLng(lat, lng)))
  }

  /** `handleSubmit` up to its `await`: alert without a position, else start submitting. */
  function Submitted(st: Form): Form {
    match st.position
    case None => st.(alerts := st.alerts + [AlertText])
    case Some(p) => st.(isSubmitting := true, pending := st.pending + [Submission(st.formData, p)])
  }

  /** `handleSubmit` after its `await`, for the earliest waiting submit: log it and navigate. */
  function DelayElapsed(st: Form): Form
    requires st.pending != []
  {
    st.(pending := st.pending[1..], log := st.log + [st.pending[0]],
        navigations := st.navigations + [ThankYouRoute])
  }

  /** `LocationMarker`'s render: a marker at the position once one is set, else nothing. */
  function MarkerAt(st: Form): Option<LatLng> {
    st.position
  }

  datatype Event = Input(field: Field, value: string) | MapClick(lat: real, lng: real) | SubmitPressed | Timeout

  /** One event; the submit button is disabled while submitting, so a press then does nothing. */
  function Step(st: Form, ev: Event): Form {
    match ev
    case Input(f, v) => InputChanged(st, f, v)
    case MapClick(lat, lng) => Clicked(st, lat, lng)
    case SubmitPressed => if st.isSubmitting then st else Submitted(st)
    case Timeout => if st.pending == [] then st else DelayElapsed(st)
  }

  function Run(st: Form, evs: seq<Event>): Form
    decreases |evs|
  {
    if evs == [] then st else Run(Step(st, evs[0]), evs[1..])
  }

  /** Only `Editing` (not submitting, nothing waiting or done) or one submit on its way or done. */
  ghost predicate Inv(st: Form) {
    (!st.isSubmitting ==> st.pending == [] && st.navigations == [])
    && (st.isSubmitting ==> |st.pending| + |st.navigations| == 1)
    && |st.log| == |st.navigations|
    && (forall i :: 0 <= i < |st.navigations| ==> st.navigations[i] == ThankYouRoute)
  }

  predicate IsEdit(ev: Event) {
    ev.Input? || ev.MapClick?
  }

  /** An input change sets the named field and leaves the other three and everything else alone. */
  lemma InputChangeSpec(st: Form, field: Field, value: string)
    ensures Get(Step(st, Input(field, value)).formData, field) == value
    ensures forall g :: g != field ==> Get(Step(st, Input(field, value)).formData, g) == Get(st.formData, g)
    ensures Step(st, Input(field, value)).(formData := st.formData) == st
  {
  }

  /** The form opens with no marker on the map. */
  lemma InitialNoMarker()
    ensures MarkerAt(Initial()).None?
  {
  }

  /** A click replaces the position, whatever it was, so the marker shows there. */
  lemma MapClickSpec(st: Form, lat: real, lng: real)
    ensures Step(st, MapClick(lat, lng)).position == Some(LatLng(lat, lng))
    ensures MarkerAt(Step(st, MapClick(lat, lng))) == Some(LatLng(lat, lng))
    ensures Step(st, MapClick(lat, lng)).(position := st.position) == st
  {
  }

  /**
   * A submit with no position only raises the alert; with a position it marks the form as
   * submitting and queues the current form and position.
   */
  lemma SubmitSpec(st: Form)
    requires !st.isSubmitting
    ensures st.position.None? ==> Step(st, SubmitPressed) == st.(alerts := st.alerts + [AlertText])
    ensures st.position.Some? ==>
      Step(st, SubmitPressed) ==
        st.(isSubmitting := true, pending := st.pending + [Submission(st.formData, st.position.value)])
  {
  }

  lemma StepKeepsInv(st: Form, ev: Event)
    requires Inv(st)
    ensures Inv(Step(st, ev))
  {
  }

  lemma {:induction false} RunKeepsInv(st: Form, evs: seq<Event>)
    requires Inv(st)
    ensures Inv(Run(st, evs))
    decreases |evs|
  {
    if evs != [] {
      StepKeepsInv(st, evs[0]);
      RunKeepsInv(Step(st, evs[0]), evs[1..]);
    }
  }

  /** Whatever the user does, the page navigates at most once, and only to the thank-you page. */
  lemma NavigatesAtMostOnce(evs: seq<Event>)
    ensures |Run(Initial(), evs).navigations| <= 1
    ensures forall i :: 0 <= i < |Run(Initial(), evs).navigations| ==>
      Run(Initial(), evs).navigations[i] == ThankYouRoute
    ensures |Run(Initial(), evs).log| == |Run(Initial(), evs).navigations|
  {
    RunKeepsInv(Initial(), evs);
  }

  /** Once submitting, always submitting: there is no way back to editing. */
  lemma {:induction false} SubmittingIsFinal(st: Form, evs: seq<Event>)
    requires st.isSubmitting
    ensures Run(st, evs).isSubmitting
    decreases |evs|
  {
    if evs != [] {
      SubmittingIsFinal(Step(st, evs[0]), evs[1..]);
    }
  }

  /** Without a map click nothing is ever submitted, logged or navigated to. */
  lemma {:induction false} NoPositionNoSubmit(st: Form, evs: seq<Event>)
    requires st.position.None? && !st.isSubmitting && st.pending == []
    requires forall i :: 0 <= i < |evs| ==> !evs[i].MapClick?
    ensures Run(st, evs).position.None? && MarkerAt(Run(st, evs)).None? && !Run(st, evs).isSubmitting
    ensures Run(st, evs).log == st.log && Run(st, evs).navigations == st.navigations
    decreases |evs|
  {
    if evs != [] {
      NoPositionNoSubmit(Step(st, evs[0]), evs[1..]);
    }
  }

  lemma {:induction false} RunAppend(st: Form, a: seq<Event>, b: seq<Event>)
    ensures Run(st, a + b) == Run(Run(st, a), b)
    decreases |a|
  {
    if a != [] {
      assert (a + b)[0] == a[0] && (a + b)[1..] == a[1..] + b;
      RunAppend(Step(st, a[0]), a[1..], b);
    } else {
      assert a + b == b;
    }
  }

  /** Edits while a submit waits change the form but not the submission under way. */
  lemma {:induction false} EditsKeepSubmission(st: Form, edits: seq<Event>)
    requires forall i :: 0 <= i < |edits| ==> IsEdit(edits[i])
    ensures Run(st, edits).(formData := st.formData, position := st.position) == st
    decreases |edits|
  {
    if edits != [] {
      EditsKeepSubmission(Step(st, edits[0]), edits[1..]);
    }
  }

  /**
   * From editing with a position, a submit followed by any edits and then the delay logs the form
   * and position as they were when submit was pressed, and navigates to the thank-you page once.
   */
  lemma SubmitLogsFormAtPress(st: Form, edits: seq<Event>)
    requires Inv(st) && !st.isSubmitting && st.position.Some?
    requires forall i :: 0 <= i < |edits| ==> IsEdit(edits[i])
    ensures Run(st, [SubmitPressed] + edits + [Timeout]).log ==
      st.log + [Submission(st.formData, st.position.value)]
    ensures Run(st, [SubmitPressed] + edits + [Timeout]).navigations == [ThankYouRoute]
    ensures Run(st, [SubmitPressed] + edits + [Timeout]).isSubmitting
  {
    var s1 := Step(st, SubmitPressed);
    RunAppend(st, [SubmitPressed] + edits, [Timeout]);
    RunAppend(st, [SubmitPressed], edits);
    EditsKeepSubmission(s1, edits);
  }

  /** The page component's state and the effects it has produced. */
  class PostSightingPage {
    var formData: FormData
    var position: Option<LatLng>
    var isSubmitting: bool
    /** Submits waiting on their delay, each holding the form and position it captured. */
    var pending: seq<Submission>
    var alerts: seq<string>
    var log: seq<Submission>
    var navigations: seq<string>

    function State(): Form
      reads this
    {
      Form(formData, position, isSubmitting, pending, alerts, log, navigations)
    }

    constructor ()
      ensures State() == Initial()
    {
      formData := FormData("", "", "", "");
      position := None;
      isSubmitting := false;
      pending := [];
      alerts := [];
      log := [];
      navigations := [];
    }

    method HandleInputChange(field: Field, value: string)
      modifies this
      ensures State() == InputChanged(old(State()), field, value)
    {
      formData := Set(formData, field, value);
    }

    /** `LocationMarker`'s click handler: `setPosition([lat, lng])`. */
    method OnMapClick(lat: real, lng: real)
      modifies this
      ensures State() == Clicked(old(State()), lat, lng)
    {
      position := Some(LatLng(lat, lng));
    }

    /** `handleSubmit` up to its `await`. */
    method HandleSubmit()
      modifies this
      ensures State() == Submitted(old(State()))
    {
      if position.None? {
        alerts := alerts + [AlertText];
        return;
      }
      isSubmitting := true;
      pending := pending + [Submission(formData, position.value)];
    }

    /** The rest of `handleSubmit` once the earliest waiting delay has passed. */
    method ResumeSubmit()
      requires pending != []
      modifies this
      ensures State() == DelayElapsed(old(State()))
    {
      var submission := pending[0];
      pending := pending[1..];
      log := log + [submission];
      navigations := navigations + [ThankYouRoute];
    }

    /** A press of the submit button, which is `disabled={isSubmitting}`. */
    method PressSubmit()
      modifies this
      ensures State() == Step(old(State()), SubmitPressed)
      ensures isSubmitting == (old(isSubmitting) || old(position).Some?)
    {
      if !isSubmitting {
        HandleSubmit();
      }
    }
  }
}
