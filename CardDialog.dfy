/**
  * The card editor of `src/components/pipeline/CardDialog.tsx`: six pieces of
  * form state, re-initialised from the edited card (or from defaults) by an
  * effect whenever its inputs change, turned into a create or update request
  * on submit, and a delete guarded by a confirmation.
  */
module CardDialog {
  import opened Base

  datatype Stage = NotStarted | Mapping | QuotePhase | Negotiation | Parked | Closed

  datatype Priority = High | Medium | Low

  /** The stored card fields the dialog reads (`PipelineCard`); `null` columns are `None`. */
  datatype PipelineCard = PipelineCard(
    id: string,
    name: string,
    stage: Stage,
    priority: Priority,
    assignedTo: Option<string>,
    notes: Option<string>,
    dateCreated: string)

  /** The six form fields. */
  datatype FormState = FormState(
    name: string,
    stage: Stage,
    priority: Priority,
    assignedTo: string,
    notes: string,
    dateCreated: string)

  /** `CreatePipelineCard`: what a submit sends; an unset optional field is `None`. */
  datatype CardData = CardData(
    name: string,
    stage: Stage,
    priority: Priority,
    assignedTo: Option<string>,
    notes: Option<string>,
    dateCreated: string)

  datatype SaveRequest = Create(data: CardData) | Update(id: string, data: CardData)

  /** The inputs the effect watches. */
  datatype EffectInputs = EffectInputs(card: Option<PipelineCard>, defaultStage: Option<Stage>, open: bool)

  /** `x || ''` for a nullable text column. */
  function OrEmpty(o: Option<string>): string {
    if o.Some? then o.value else ""
  }

  /** `x || undefined` for a text field. */
  function EmptyToNone(s: string): (r: Option<string>)
    ensures r.None? <==> s == ""
    ensures r.Some? ==> r.value == s
  {
    if s == "" then None else Some(s)
  }

  /** The form the effect sets up: a copy of the edited card, or a blank card for `today`. */
  function InitialForm(card: Option<PipelineCard>, defaultStage: Option<Stage>, today: string): FormState {
    match card
    case Some(c) => FormState(c.name, c.stage, c.priority, OrEmpty(c.assignedTo), OrEmpty(c.notes), c.dateCreated)
    case None =>
      FormState("", if defaultStage.Some? then defaultStage.value else NotStarted, Medium, "", "", today)
  }

  /** The `cardData` a submit builds from the form. */
  function CardDataOf(f: FormState): (d: CardData)
    ensures d.name == f.name && d.stage == f.stage && d.priority == f.priority && d.dateCreated == f.dateCreated
    ensures d.assignedTo == EmptyToNone(f.assignedTo) && d.notes == EmptyToNone(f.notes)
  {
    CardData(f.name, f.stage, f.priority, EmptyToNone(f.assignedTo), EmptyToNone(f.notes), f.dateCreated)
  }

  /** The form a card's data is edited in. */
  function FormOfData(d: CardData): FormState {
    FormState(d.name, d.stage, d.priority, OrEmpty(d.assignedTo), OrEmpty(d.notes), d.dateCreated)
  }

  /** Editing a copy of what was submitted gives back the same form. */
  lemma FormRoundTrip(f: FormState)
    ensures FormOfData(CardDataOf(f)) == f
  {
  }

  /** Data whose optional fields are unset or non-empty survives the trip through the form. */
  lemma DataRoundTrip(d: CardData)
    requires d.assignedTo != Some("") && d.notes != Some("")
    ensures CardDataOf(FormOfData(d)) == d
  {
  }

  /** Editing an existing card shows all its fields, `null` text as empty. */
  lemma EditShowsCard(c: PipelineCard, defaultStage: Option<Stage>, today: string)
    ensures var f := InitialForm(Some(c), defaultStage, today);
      && f.name == c.name && f.stage == c.stage && f.priority == c.priority && f.dateCreated == c.dateCreated
      && (c.assignedTo.None? ==> f.assignedTo == "") && (c.assignedTo.Some? ==> f.assignedTo == c.assignedTo.value)
      && (c.notes.None? ==> f.notes == "") && (c.notes.Some? ==> f.notes == c.notes.value)
  {
  }

  /** A new card: empty name, assignee and notes; the given default stage or `not_started`; priority `M`; today's date. */
  lemma NewCardDefaults(defaultStage: Option<Stage>, today: string)
    ensures var f := InitialForm(None, defaultStage, today);
      && f.name == "" && f.assignedTo == "" && f.notes == ""
      && f.priority == Medium && f.dateCreated == today
      && (defaultStage.Some? ==> f.stage == defaultStage.value)
      && (defaultStage.None? ==> f.stage == NotStarted)
  {
  }

  /** Saving an unedited card sends back its own fields, except that a stored empty text is sent unset. */
  lemma UneditedSaveKeepsCard(c: PipelineCard, defaultStage: Option<Stage>, today: string)
    ensures CardDataOf(InitialForm(Some(c), defaultStage, today)) ==
      CardData(c.name, c.stage, c.priority,
               if c.assignedTo == Some("") then None else c.assignedTo,
               if c.notes == Some("") then None else c.notes,
               c.dateCreated)
  {
  }

  /** A user edit of one form field. */
  datatype Edit =
    | SetName(name: string)
    | SetStage(stage: Stage)
    | SetPriority(priority: Priority)
    | SetAssignedTo(assignedTo: string)
    | SetNotes(notes: string)
    | SetDateCreated(dateCreated: string)

  function Edited(f: FormState, e: Edit): FormState {
    match e
    case SetName(v) => f.(name := v)
    case SetStage(v) => f.(stage := v)
    case SetPriority(v) => f.(priority := v)
    case SetAssignedTo(v) => f.(assignedTo := v)
    case SetNotes(v) => f.(notes := v)
    case SetDateCreated(v) => f.(dateCreated := v)
  }

  /** Clearing the assignee or the notes in the form leaves that field unset in what is sent, and nothing else changes. */
  lemma ClearingUnsets(f: FormState)
    ensures CardDataOf(Edited(f, SetAssignedTo(""))) == CardDataOf(f).(assignedTo := None)
    ensures CardDataOf(Edited(f, SetNotes(""))) == CardDataOf(f).(notes := None)
  {
  }

  /** The dialog component with its form state and the inputs its effect last ran for. */
  class Dialog {
    var name: string
    var stage: Stage
    var priority: Priority
    var assignedTo: string
    var notes: string
    var dateCreated: string
    var lastInputs: EffectInputs

    function Form(): FormState
      reads this
    {
      FormState(name, stage, priority, assignedTo, notes, dateCreated)
    }

    /** The initialisation effect body. */
    method RunEffect(card: Option<PipelineCard>, defaultStage: Option<Stage>, today: string)
      modifies this
      ensures Form() == InitialForm(card, defaultStage, today)
      ensures lastInputs == old(lastInputs)
    {
      if card.Some? {
        var c := card.value;
        name := c.name;
        stage := c.stage;
        priority := c.priority;
        assignedTo := OrEmpty(c.assignedTo);
        notes := OrEmpty(c.notes);
        dateCreated := c.dateCreated;
      } else {
        name := "";
        stage := if defaultStage.Some? then defaultStage.value else NotStarted;
        priority := Medium;
        assignedTo := "";
        notes := "";
        dateCreated := today;
      }
    }

    /** Mounting: the `useState` initial values, then the effect's first run. */
    constructor (card: Option<PipelineCard>, defaultStage: Option<Stage>, open: bool, today: string)
      ensures Form() == InitialForm(card, defaultStage, today)
      ensures lastInputs == EffectInputs(card, defaultStage, open)
    {
      name := "";
      stage := if defaultStage.Some? then defaultStage.value else NotStarted;
      priority := Medium;
      assignedTo := "";
      notes := "";
      dateCreated := "";
      lastInputs := EffectInputs(card, defaultStage, open);
      new;
      RunEffect(card, defaultStage, today);
    }

    /** A re-render: the effect runs again exactly when `card`, `defaultStage` or `open` changed. */
    method Rerender(card: Option<PipelineCard>, defaultStage: Option<Stage>, open: bool, today: string)
      modifies this
      ensures EffectInputs(card, defaultStage, open) != old(lastInputs) ==> Form() == InitialForm(card, defaultStage, today)
      ensures EffectInputs(card, defaultStage, open) == old(lastInputs) ==> Form() == old(Form())
      ensures lastInputs == EffectInputs(card, defaultStage, open)
    {
      var inputs := EffectInputs(card, defaultStage, open);
      if inputs != lastInputs {
        RunEffect(card, defaultStage, today);
      }
      lastInputs := inputs;
    }

    /** An input's change handler. */
    method ApplyEdit(e: Edit)
      modifies this
      ensures Form() == Edited(old(Form()), e)
      ensures lastInputs == old(lastInputs)
    {
      match e
      case SetName(v) => name := v;
      case SetStage(v) => stage := v;
      case SetPriority(v) => priority := v;
      case SetAssignedTo(v) => assignedTo := v;
      case SetNotes(v) => notes := v;
      case SetDateCreated(v) => dateCreated := v;
    }

    /**
      * `handleSubmit`: an update carrying the card's id when a card is being
      * edited, a create otherwise, always with the form's data; the dialog asks
      * to close exactly when the save succeeds.
      */
    method HandleSubmit(card: Option<PipelineCard>, saveOk: bool) returns (request: SaveRequest, closes: bool)
      ensures request.data == CardDataOf(Form())
      ensures request.Update? <==> card.Some?
      ensures request.Update? ==> request.id == card.value.id
      ensures closes <==> saveOk
    {
      var data := CardData(name, stage, priority, EmptyToNone(assignedTo), EmptyToNone(notes), dateCreated);
      if card.Some? {
        request := Update(card.value.id, data);
      } else {
        request := Create(data);
      }
      closes := saveOk;
    }
  }

  /** What `handleDelete` does: whether it asked for confirmation, the id it deleted, and whether the dialog closes. */
  datatype DeleteOutcome = DeleteOutcome(asked: bool, deleted: Option<string>, closes: bool)

  /**
    * `handleDelete`: confirmation is asked only when a card is being edited;
    * the card is deleted only when the user confirms; the dialog closes only
    * when the delete succeeds.
    */
  method HandleDelete(card: Option<PipelineCard>, confirmed: bool, deleteOk: bool) returns (r: DeleteOutcome)
    ensures r.asked <==> card.Some?
    ensures r.deleted.Some? <==> card.Some? && confirmed
    ensures r.deleted.Some? ==> r.deleted.value == card.value.id
    ensures r.closes <==> r.deleted.Some? && deleteOk
  {
    r := DeleteOutcome(false, None, false);
    if card.Some? {
      r := r.(asked := true);
      if confirmed {
        r := r.(deleted := Some(card.value.id), closes := deleteOk);
      }
    }
  }
}
