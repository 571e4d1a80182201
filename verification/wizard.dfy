/**
 * The three-step booking wizard (`frontend/src/pages/OrderPage.tsx`, with the
 * catalogue of `frontend/src/types.ts`): choosing a service, a date and a time
 * slot, then the contact details, and the request the final button sends.
 * Step 1 is the service, step 2 the date and slot, step 3 the contact form.
 * Navigation away from the page and the request itself are I/O and not modelled.
 */
module OrderWizard {
  import opened Common
  import OrdersApi

  /** The catalogue `SERVICES`, in display order. */
  datatype Service = Containers | Home | Office | Renovation | Windows

  /** The `id` of a catalogue entry. */
  function ServiceId(s: Service): string
  {
    match s
    case Containers => "conteneurs"
    case Home => "domicile"
    case Office => "bureau"
    case Renovation => "travaux"
    case Windows => "vitres"
  }

  /** The ids of the catalogue are pairwise distinct. */
  lemma ServiceIdInjective(a: Service, b: Service)
    ensures ServiceId(a) == ServiceId(b) ==> a == b
  {
  }

  /** `SERVICES.find((s) => s.id === id) || null`: the entry with that id, if any. */
  function FindService(id: string): (r: Option<Service>)
    ensures r.Some? ==> ServiceId(r.value) == id
    ensures r.None? <==> forall s: Service :: ServiceId(s) != id
  {
    if id == "conteneurs" then Some(Containers)
    else if id == "domicile" then Some(Home)
    else if id == "bureau" then Some(Office)
    else if id == "travaux" then Some(Renovation)
    else if id == "vitres" then Some(Windows)
    else None
  }

  /** Looking an entry up by its own id finds it again. */
  lemma FindServiceId(s: Service)
    ensures FindService(ServiceId(s)) == Some(s)
  {
  }

  /** The slots `TIME_SLOTS` offered on step 2. */
  const TimeSlots: seq<string> :=
    ["08h00 – 10h00", "10h00 – 12h00", "14h00 – 16h00", "16h00 – 18h00"]

  /** The contact form of step 3. */
  datatype Form = Form(
    clientName: string,
    clientEmail: string,
    clientPhone: string,
    address: string,
    surfaceArea: string,
    notes: string)

  const EmptyForm: Form := Form("", "", "", "", "", "")

  /** The wizard's state: the current step and the choices made so far. */
  datatype Wizard = Wizard(step: int, service: Option<Service>, date: string, timeSlot: string, form: Form)

  /** The page as it opens: step 1, with the service named by the `service` query
      parameter already chosen when it names one (`""` stands for no parameter). */
  function Initial(preselected: string): (r: Wizard)
    ensures r.step == 1 && r.date == "" && r.timeSlot == "" && r.form == EmptyForm
    ensures r.service.Some? <==> exists s: Service :: ServiceId(s) == preselected
    ensures r.service.Some? ==> ServiceId(r.service.value) == preselected
  {
    Wizard(1, if preselected == "" then None else FindService(preselected), "", "", EmptyForm)
  }

  /** `canGoNext`: step 1 needs a service, step 2 a date and a slot, step 3 a name,
      e-mail, phone and address; any other step never goes on. */
  predicate CanGoNext(w: Wizard)
    ensures CanGoNext(w) ==> 1 <= w.step <= 3
    ensures w.step == 3 && w.service.Some? && w.date != "" && w.timeSlot != "" ==>
      (CanGoNext(w) <==> OrdersApi.HasRequiredFields(Payload(w)))
  {
    if w.step == 1 then w.service.Some?
    else if w.step == 2 then w.date != "" && w.timeSlot != ""
    else if w.step == 3 then
      w.form.clientName != "" && w.form.clientEmail != "" && w.form.clientPhone != ""
      && w.form.address != ""
    else false
  }

  /** What the user can do on the page. Inputs act only while their step is shown;
      a slot is one of `TimeSlots`, by position. */
  datatype UiEvent =
    | PickService(s: Service)
    | PickDate(date: string)
    | PickSlot(slot: nat)
    | EditForm(form: Form)
    | ClickContinue
    | ClickBack

  /** Where the back button leads: one step back, or off the page from step 1. */
  datatype BackTarget = PreviousStep(w: Wizard) | LeavePage

  /** The back button (`Retour`, or `Annuler` on step 1). */
  function Back(w: Wizard): (r: BackTarget)
    ensures r == LeavePage <==> w.step <= 1
    ensures r.PreviousStep? ==> r.w == w.(step := w.step - 1)
  {
    if w.step > 1 then PreviousStep(w.(step := w.step - 1)) else LeavePage
  }

  /** One interaction. Controls of another step are not on screen and change
      nothing; `Continue` is disabled unless `CanGoNext` and moves one step
      (`handleNext`); the back button on step 1 leaves the page, which is
      outside this model, so the state is left as it is. */
  function Step(w: Wizard, e: UiEvent): (r: Wizard)
    ensures w.step - 1 <= r.step <= w.step + 1
    ensures r.step == w.step + 1 ==> w.step < 3 && CanGoNext(w)
    ensures r.step == w.step - 1 ==> w.step > 1
    ensures r.service != w.service ==> w.step == 1 && r.service.Some?
    ensures (r.date != w.date || r.timeSlot != w.timeSlot) ==> w.step == 2
    ensures r.timeSlot != w.timeSlot ==> r.timeSlot in TimeSlots
    ensures r.form != w.form ==> w.step == 3
    ensures e == ClickContinue && w.step < 3 && CanGoNext(w) ==> r == w.(step := w.step + 1)
    ensures e == ClickBack && w.step > 1 ==> r == w.(step := w.step - 1)
    ensures e.PickService? && w.step == 1 ==> r == w.(service := Some(e.s))
    ensures e.PickDate? && w.step == 2 ==> r == w.(date := e.date)
    ensures e.PickSlot? && w.step == 2 && e.slot < |TimeSlots| ==> r == w.(timeSlot := TimeSlots[e.slot])
    ensures e.EditForm? && w.step == 3 ==> r == w.(form := e.form)
  {
    match e
    case PickService(s) => if w.step == 1 then w.(service := Some(s)) else w
    case PickDate(d) => if w.step == 2 then w.(date := d) else w
    case PickSlot(i) => if w.step == 2 && i < |TimeSlots| then w.(timeSlot := TimeSlots[i]) else w
    case EditForm(f) => if w.step == 3 then w.(form := f) else w
    case ClickContinue => if w.step < 3 && CanGoNext(w) then w.(step := w.step + 1) else w
    case ClickBack =>
      match Back(w)
      case PreviousStep(p) => p
      case LeavePage => w
  }

  /** The state after a sequence of interactions. */
  function Run(w: Wizard, es: seq<UiEvent>): Wizard
    decreases |es|
  {
    if |es| == 0 then w else Run(Step(w, es[0]), es[1..])
  }

  /** What every reachable state satisfies: the step is 1, 2 or 3; from step 2 on a
      service is chosen; on step 3 a date and a slot are chosen. */
  ghost predicate Consistent(w: Wizard)
  {
    && 1 <= w.step <= 3
    && (w.step >= 2 ==> w.service.Some?)
    && (w.step == 3 ==> w.date != "" && w.timeSlot != "")
  }

  lemma StepKeepsConsistent(w: Wizard, e: UiEvent)
    requires Consistent(w)
    ensures Consistent(Step(w, e))
  {
  }

  /** No sequence of interactions from the opening page breaks consistency. */
  lemma {:induction false} RunKeepsConsistent(w: Wizard, es: seq<UiEvent>)
    requires Consistent(w)
    ensures Consistent(Run(w, es))
    decreases |es|
  {
    if |es| > 0 {
      StepKeepsConsistent(w, es[0]);
      RunKeepsConsistent(Step(w, es[0]), es[1..]);
    }
  }

  /** Whether the final button is enabled: it is shown only on the last step and is
      disabled unless `CanGoNext` holds and no request is in flight. */
  predicate CanSubmit(w: Wizard, loading: bool)
    ensures CanSubmit(w, loading) ==> !loading && w.step == 3
    ensures CanSubmit(w, loading) && Consistent(w) ==>
      w.service.Some? && OrdersApi.HasRequiredFields(Payload(w))
  {
    !(w.step < 3) && CanGoNext(w) && !loading
  }

  /** The body `handleSubmit` posts: the service id, the date and slot, then the form. */
  function Payload(w: Wizard): (r: OrdersApi.OrderRequest)
    requires w.service.Some?
    ensures r.service == ServiceId(w.service.value) && r.date == w.date && r.timeSlot == w.timeSlot
    ensures r.clientName == w.form.clientName && r.clientEmail == w.form.clientEmail
    ensures r.clientPhone == w.form.clientPhone && r.address == w.form.address
    ensures r.surfaceArea == w.form.surfaceArea && r.notes == w.form.notes
  {
    OrdersApi.OrderRequest(ServiceId(w.service.value), w.form.clientName, w.form.clientEmail,
                           w.form.clientPhone, w.form.address, w.date, w.timeSlot,
                           w.form.surfaceArea, w.form.notes)
  }

  /** From any reachable state, an enabled final button sends a body carrying every
      field the server requires. */
  lemma {:induction false} SubmittedPayloadComplete(preselected: string, es: seq<UiEvent>, loading: bool)
    requires CanSubmit(Run(Initial(preselected), es), loading)
    ensures Run(Initial(preselected), es).service.Some?
    ensures OrdersApi.HasRequiredFields(Payload(Run(Initial(preselected), es)))
  {
    RunKeepsConsistent(Initial(preselected), es);
  }
}
