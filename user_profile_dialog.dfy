/**
 * The user profile dialog: a component dialog that registers three prompts and a
 * five-step waterfall. Each step is a transition from (state, previous result)
 * to a new state and an action; the waterfall controller threads the state
 * through the registered step list; `RunTurn` is the `run` entry rule.
 */
module UserProfileDialog {
  import opened Js

  type DialogId = string

  const MESSAGE_PROMPT: DialogId := "MESSAGE_PROMPT"
  const CONFIRM_PROMPT: DialogId := "CONFIRM_PROMPT"
  const NAME_PROMPT: DialogId := "NAME_PROMPT"
  const NUMBER_PROMPT: DialogId := "NUMBER_PROMPT"
  const WATERFALL_DIALOG: DialogId := "WATERFALL_DIALOG"

  /** The dialogs the constructor adds to the component; MESSAGE_PROMPT is not among them. */
  const REGISTERED: set<DialogId> := {NAME_PROMPT, CONFIRM_PROMPT, NUMBER_PROMPT, WATERFALL_DIALOG}

  // ---------------------------------------------------------------------------
  // Age validator
  // ---------------------------------------------------------------------------

  /** What the number prompt recognised in a reply. */
  datatype Recognition = Recognition(succeeded: bool, value: int)

  /** The acceptance rule the number prompt applies before it hands an age on. */
  function AgePromptValidator(r: Recognition): (ok: bool)
    ensures ok <==> r.succeeded && 1 <= r.value <= 149
    ensures !ok ==> !r.succeeded || r.value <= 0 || 150 <= r.value
  {
    r.succeeded && r.value > 0 && r.value < 150
  }

  /** A reply counts as recognised by the number prompt exactly when it is a number. */
  function Recognize(reply: Value): (r: Recognition)
    ensures r.succeeded <==> reply.Num?
    ensures r.succeeded ==> r.value == reply.n
  {
    if reply.Num? then Recognition(true, reply.n) else Recognition(false, 0)
  }

  /** An age as the dialog may store it: the sentinel -1, or an age the validator accepts. */
  predicate ValidAge(v: Value)
  {
    v == Num(-1) || (v.Num? && 0 < v.n < 150)
  }

  // ---------------------------------------------------------------------------
  // State of one waterfall run
  // ---------------------------------------------------------------------------

  /** The `step.values` bag; a slot is None until a step assigns it. */
  datatype Values = Values(name: Option<Value>, size: Option<Value>, age: Option<Value>, transport: Option<Value>)

  const NO_VALUES: Values := Values(None, None, None, None)

  /** The fields of the stored user profile that the summary step writes. */
  datatype Profile = Profile(name: Value, transport: Value, age: Value)

  /** Messages the steps send with `sendActivity`, as tags. */
  datatype Message =
    | Hello(name: Value)                                    // greeting of the size step
    | SizeEcho(size: Value)                                 // "so you want an acai of ..."
    | AgeUnknown                                            // "age not given"
    | AgeEcho(age: Value)                                   // "you are ... years old"
    | Summary(transport: Value, name: Value, ageClause: Option<Value>)  // the age clause, when present
    | NotStored                                             // "your profile will not be stored"

  /** Prompt texts, as tags. */
  datatype PromptText = AskName | AskSize | AskAgeWanted | AskAge | RetryAge | AskConfirm

  datatype PromptOptions = PromptOptions(prompt: PromptText, retry: Option<PromptText>, choices: seq<string>)

  /** What a step returns: start a prompt, advance at once with a value, or end the dialog. */
  datatype Action = Prompt(id: DialogId, options: PromptOptions) | Next(result: Value) | End

  /**
   * The state a step sees: the waterfall's step index, the values bag, the
   * USER_PROFILE property of the user state, and the messages sent so far.
   */
  datatype DialogState = DialogState(index: nat, values: Values, profile: Option<Profile>, outbox: seq<Message>)

  datatype StepResult = StepResult(state: DialogState, action: Action)

  const NAME_OPTIONS: PromptOptions := PromptOptions(AskName, None, [])
  const SIZE_OPTIONS: PromptOptions := PromptOptions(AskSize, None, [])
  const AGE_WANTED_OPTIONS: PromptOptions := PromptOptions(AskAgeWanted, None, ["sim", "nao"])
  const AGE_OPTIONS: PromptOptions := PromptOptions(AskAge, Some(RetryAge), [])
  const CONFIRM_OPTIONS: PromptOptions := PromptOptions(AskConfirm, None, [])

  // ---------------------------------------------------------------------------
  // The step functions
  // ---------------------------------------------------------------------------

  /** Asks for the name with the registered text prompt; writes nothing. */
  function NameStep(st: DialogState): (o: StepResult)
    ensures o.state == st
    ensures o.action == Prompt(NAME_PROMPT, NAME_OPTIONS) && o.action.id in REGISTERED
  {
    StepResult(st, Prompt(NAME_PROMPT, NAME_OPTIONS))
  }

  /** Stores the result as the name, greets, and asks for the size with the unregistered MESSAGE_PROMPT. */
  function SizeStep(st: DialogState, result: Value): (o: StepResult)
    ensures o.state.values == st.values.(name := Some(result))
    ensures o.state.outbox == st.outbox + [Hello(result)]
    ensures o.state.index == st.index && o.state.profile == st.profile
    ensures o.action == Prompt(MESSAGE_PROMPT, SIZE_OPTIONS) && o.action.id !in REGISTERED
  {
    var values := st.values.(name := Some(result));
    StepResult(st.(values := values, outbox := st.outbox + [Hello(result)]), Prompt(MESSAGE_PROMPT, SIZE_OPTIONS))
  }

  /** Stores the result as the size, echoes it, and asks "sim"/"nao" with the unregistered MESSAGE_PROMPT. */
  function NameConfirmStep(st: DialogState, result: Value): (o: StepResult)
    ensures o.state.values == st.values.(size := Some(result))
    ensures o.state.outbox == st.outbox + [SizeEcho(result)]
    ensures o.state.index == st.index && o.state.profile == st.profile
    ensures o.action == Prompt(MESSAGE_PROMPT, AGE_WANTED_OPTIONS) && o.action.id !in REGISTERED
  {
    var values := st.values.(size := Some(result));
    StepResult(st.(values := values, outbox := st.outbox + [SizeEcho(result)]), Prompt(MESSAGE_PROMPT, AGE_WANTED_OPTIONS))
  }

  /**
   * A truthy result starts the number prompt, whose options carry a retry
   * message; a falsy one issues no prompt and advances at once with -1.
   */
  function AgeStep(st: DialogState, result: Value): (o: StepResult)
    ensures o.state == st
    ensures o.action.Prompt? <==> Truthy(result)
    ensures o.action.Prompt? ==> o.action.id == NUMBER_PROMPT && o.action.options.retry == Some(RetryAge)
    ensures !o.action.Prompt? ==> o.action == Next(Num(-1))
  {
    if Truthy(result) then StepResult(st, Prompt(NUMBER_PROMPT, AGE_OPTIONS))
    else StepResult(st, Next(Num(-1)))
  }

  /** The message of the confirm step: the "age not given" text exactly for the sentinel -1. */
  function AgeMessage(age: Value): (m: Message)
    ensures m == AgeUnknown <==> age == Num(-1)
    ensures m != AgeUnknown ==> m == AgeEcho(age)
  {
    if age == Num(-1) then AgeUnknown else AgeEcho(age)
  }

  /** Stores the result as the age, reports it, and asks for the final confirmation. */
  function ConfirmStep(st: DialogState, result: Value): (o: StepResult)
    ensures o.state.values == st.values.(age := Some(result))
    ensures o.state.outbox == st.outbox + [AgeMessage(result)]
    ensures o.state.index == st.index && o.state.profile == st.profile
    ensures o.action == Prompt(CONFIRM_PROMPT, CONFIRM_OPTIONS) && o.action.id in REGISTERED
  {
    var values := st.values.(age := Some(result));
    StepResult(st.(values := values, outbox := st.outbox + [AgeMessage(values.age.value)]), Prompt(CONFIRM_PROMPT, CONFIRM_OPTIONS))
  }

  /** The profile the summary step leaves in the store: transport, name and age copied from the bag. */
  function Collected(values: Values): (p: Profile)
    ensures values.name.None? ==> p.name == Undefined
    ensures values.name.Some? ==> p.name == values.name.value
    ensures values.transport.None? ==> p.transport == Undefined
    ensures values.transport.Some? ==> p.transport == values.transport.value
    ensures values.age.None? ==> p.age == Undefined
    ensures values.age.Some? ==> p.age == values.age.value
  {
    Profile(OrUndefined(values.name), OrUndefined(values.transport), OrUndefined(values.age))
  }

  /** The summary text: carries the age clause exactly when the age is not -1. */
  function SummaryMessage(p: Profile): (m: Message)
    ensures m.Summary? && m.transport == p.transport && m.name == p.name
    ensures m.ageClause.Some? <==> p.age != Num(-1)
    ensures m.ageClause.Some? ==> m.ageClause.value == p.age
  {
    Summary(p.transport, p.name, if p.age != Num(-1) then Some(p.age) else None)
  }

  /**
   * A truthy result overwrites the stored profile (whatever was there) with the
   * collected values and sends the summary; a falsy one sends only the decline
   * message and leaves the store as it was. Both end the dialog.
   */
  function SummaryStep(st: DialogState, result: Value): (o: StepResult)
    ensures o.action == End
    ensures o.state.index == st.index && o.state.values == st.values
    ensures Truthy(result) ==> o.state.profile == Some(Collected(st.values))
    ensures Truthy(result) ==> o.state.outbox == st.outbox + [SummaryMessage(Collected(st.values))]
    ensures !Truthy(result) ==> o.state.profile == st.profile && o.state.outbox == st.outbox + [NotStored]
  {
    if Truthy(result) then
      var p := Collected(st.values);
      StepResult(st.(profile := Some(p), outbox := st.outbox + [SummaryMessage(p)]), End)
    else
      StepResult(st.(outbox := st.outbox + [NotStored]), End)
  }

  // ---------------------------------------------------------------------------
  // The waterfall
  // ---------------------------------------------------------------------------

  datatype StepName = Name | Size | NameConfirm | Age | Confirm | Summarize

  /** The step list given to the waterfall dialog; the size step is not in it. */
  const WATERFALL: seq<StepName> := [Name, NameConfirm, Age, Confirm, Summarize]

  /** Runs one step function. */
  function Transition(step: StepName, st: DialogState, result: Value): (o: StepResult)
    ensures o.state.index == st.index
    ensures o.state.values.transport == st.values.transport
    ensures step != Size ==> o.state.values.name == st.values.name
    ensures step != Summarize ==> o.state.profile == st.profile
    ensures st.outbox <= o.state.outbox
    ensures o.action.Next? ==> step == Age && o.action.result == Num(-1)
    ensures o.action.End? <==> step == Summarize
  {
    match step
    case Name => NameStep(st)
    case Size => SizeStep(st, result)
    case NameConfirm => NameConfirmStep(st, result)
    case Age => AgeStep(st, result)
    case Confirm => ConfirmStep(st, result)
    case Summarize => SummaryStep(st, result)
  }

  /** Where a conversation's dialog stands after a turn. */
  datatype Status =
    | Waiting(prompt: DialogId)     // a registered prompt is active; the next reply resumes it
    | Complete                      // the waterfall ended
    | Faulted(unknown: DialogId)    // a step asked for a dialog id that was never registered
    | Empty                         // no dialog is active

  datatype Session = Session(state: DialogState, status: Status)

  /**
   * Runs the waterfall from step `i` with `result` until a step prompts or ends
   * it; past the last step the waterfall ends. `state.index` records the last
   * step that ran.
   */
  function Execute(st: DialogState, i: nat, result: Value): (s: Session)
    ensures s.status != Empty
    ensures i <= s.state.index
    ensures s.state.values.name == st.values.name
    ensures s.state.values.transport == st.values.transport
    ensures st.outbox <= s.state.outbox
    ensures s.status.Waiting? ==> s.status.prompt in REGISTERED && s.state.index < |WATERFALL|
    ensures s.status.Faulted? ==> s.status.unknown !in REGISTERED && s.state.index < |WATERFALL|
    decreases |WATERFALL| - i
  {
    if i >= |WATERFALL| then Session(st.(index := i), Complete)
    else
      var o := Transition(WATERFALL[i], st.(index := i), result);
      match o.action
      case End => Session(o.state, Complete)
      case Next(v) => Execute(o.state, i + 1, v)
      case Prompt(id, _) =>
        if id in REGISTERED then Session(o.state, Waiting(id)) else Session(o.state, Faulted(id))
  }

  /**
   * Hands a reply to the active prompt. The number prompt keeps waiting, with
   * nothing changed, until its validator accepts; any other prompt resumes the
   * waterfall at the step after the one that prompted.
   */
  function Resume(st: DialogState, pending: DialogId, reply: Value): (s: Session)
    ensures s.status != Empty
    ensures pending == NUMBER_PROMPT && !AgePromptValidator(Recognize(reply)) ==> s == Session(st, Waiting(pending))
    ensures pending == NUMBER_PROMPT && st.index == 2 && AgePromptValidator(Recognize(reply)) ==>
              s == Session(st.(index := 3, values := st.values.(age := Some(reply)), outbox := st.outbox + [AgeEcho(reply)]),
                           Waiting(CONFIRM_PROMPT))
  {
    if pending == NUMBER_PROMPT && !AgePromptValidator(Recognize(reply)) then Session(st, Waiting(pending))
    else Execute(st, st.index + 1, reply)
  }

  /** Starts a fresh waterfall: an empty values bag, from the first step, with no result. */
  function Begin(st: DialogState): (s: Session)
    ensures s.status == Waiting(NAME_PROMPT) && s.state.index == 0
    ensures s.state.values == NO_VALUES && s.state.profile == st.profile && s.state.outbox == st.outbox
  {
    Execute(st.(values := NO_VALUES), 0, Undefined)
  }

  /** `continueDialog`: resumes an active prompt, and reports Empty when no dialog is active. */
  function Continue(s: Session, reply: Value): (c: Session)
    ensures c.status == Empty <==> !s.status.Waiting?
    ensures c.status == Empty ==> c.state == s.state
  {
    if s.status.Waiting? then Resume(s.state, s.status.prompt, reply) else Session(s.state, Empty)
  }

  /** `run`: continue the active dialog; begin a new one only when continuing reported Empty. */
  function RunTurn(s: Session, reply: Value): (r: Session)
    ensures Continue(s, reply).status == Empty ==> r == Begin(s.state)
    ensures Continue(s, reply).status != Empty ==> r == Continue(s, reply)
    ensures s.status.Waiting? ==> r == Resume(s.state, s.status.prompt, reply)
  {
    var c := Continue(s, reply);
    if c.status == Empty then Begin(c.state) else c
  }

  /**
   * What the next turn sees. The bot saves conversation and user state only
   * after `run` returns, so a turn whose step threw leaves the state saved
   * before it in place; the messages it already sent stay sent.
   */
  function Persisted(before: Session, after: Session): (p: Session)
    ensures !after.status.Faulted? ==> p == after
    ensures after.status.Faulted? ==> p == Session(before.state.(outbox := after.state.outbox), before.status)
  {
    if after.status.Faulted? then Session(before.state.(outbox := after.state.outbox), before.status) else after
  }

  /** A conversation: one turn per reply. */
  function Converse(s: Session, replies: seq<Value>): (c: Session)
    ensures s.state.outbox <= c.state.outbox
    decreases |replies|
  {
    if replies == [] then s else Converse(Persisted(s, RunTurn(s, replies[0])), replies[1..])
  }

  /** A conversation before its first message: nothing active, nothing stored, nothing sent. */
  const INITIAL: Session := Session(DialogState(0, NO_VALUES, None, []), Empty)

  // ---------------------------------------------------------------------------
  // Properties
  // ---------------------------------------------------------------------------

  /** The size step is not in the step list, so the controller can never run it. */
  lemma SizeStepNeverRegistered(i: nat)
    requires i < |WATERFALL|
    ensures WATERFALL[i] != Size
    ensures WATERFALL[i] == Name <==> i == 0
  {
  }

  /** Declining to give an age: no number prompt, age -1 stored, confirmation asked within the same turn. */
  lemma DecliningAgeSkipsNumberPrompt(st: DialogState, result: Value)
    requires !Truthy(result)
    ensures Execute(st, 2, result).status == Waiting(CONFIRM_PROMPT)
    ensures Execute(st, 2, result).state.index == 3
    ensures Execute(st, 2, result).state.values == st.values.(age := Some(Num(-1)))
    ensures Execute(st, 2, result).state.outbox == st.outbox + [AgeUnknown]
    ensures Execute(st, 2, result).state.profile == st.profile
  {
    var o := Transition(Age, st.(index := 2), result);
    assert o.action == Next(Num(-1));
    var c := Transition(Confirm, o.state.(index := 3), Num(-1));
    assert Execute(o.state, 3, Num(-1)) == Session(c.state, Waiting(CONFIRM_PROMPT));
  }

  /** An age outside (0, 150) leaves a waiting number prompt exactly as it was. */
  lemma RejectedAgeChangesNothing(st: DialogState, age: int)
    requires age <= 0 || 150 <= age
    ensures Resume(st, NUMBER_PROMPT, Num(age)) == Session(st, Waiting(NUMBER_PROMPT))
  {
  }

  /**
   * The final confirmation: "yes" overwrites the store with the collected values,
   * "no" leaves it untouched; both end the dialog.
   */
  lemma FinalConfirmation(st: DialogState, reply: Value)
    requires st.index == 3
    ensures Resume(st, CONFIRM_PROMPT, reply).status == Complete
    ensures Truthy(reply) ==> Resume(st, CONFIRM_PROMPT, reply).state.profile == Some(Collected(st.values))
    ensures !Truthy(reply) ==> Resume(st, CONFIRM_PROMPT, reply).state.profile == st.profile
  {
    assert Resume(st, CONFIRM_PROMPT, reply) == Execute(st, 4, reply);
    var o := Transition(Summarize, st.(index := 4), reply);
    assert Execute(st, 4, reply) == Session(o.state, Complete);
  }

  /** The ages a session may hold, and where it may wait, agree with the step wiring. */
  predicate Consistent(s: Session)
  {
    && (s.state.values.age.Some? ==> ValidAge(s.state.values.age.value))
    && (s.state.profile.Some? ==> ValidAge(s.state.profile.value.age))
    && (s.status.Waiting? ==>
          || (s.state.index == 0 && s.status.prompt == NAME_PROMPT)
          || (s.state.index == 2 && s.status.prompt == NUMBER_PROMPT)
          || (s.state.index == 3 && s.status.prompt == CONFIRM_PROMPT && s.state.values.age.Some?))
  }

  lemma {:induction false} ExecuteConsistent(st: DialogState, i: nat, result: Value)
    requires st.values.age.Some? ==> ValidAge(st.values.age.value)
    requires st.profile.Some? ==> ValidAge(st.profile.value.age)
    requires i == 3 ==> ValidAge(result)
    requires i == 4 ==> st.values.age.Some?
    ensures Consistent(Execute(st, i, result))
    decreases |WATERFALL| - i
  {
    if i < |WATERFALL| {
      var o := Transition(WATERFALL[i], st.(index := i), result);
      if o.action.Next? {
        ExecuteConsistent(o.state, i + 1, o.action.result);
      }
    }
  }

  /** A turn keeps a session consistent: an age is stored only as -1 or within (0, 150). */
  lemma RunTurnConsistent(s: Session, reply: Value)
    requires Consistent(s)
    ensures Consistent(RunTurn(s, reply))
  {
    if s.status.Waiting? {
      if !(s.status.prompt == NUMBER_PROMPT && !AgePromptValidator(Recognize(reply))) {
        ExecuteConsistent(s.state, s.state.index + 1, reply);
      }
    } else {
      ExecuteConsistent(s.state.(values := NO_VALUES), 0, Undefined);
    }
  }

  lemma {:induction false} ConverseConsistent(s: Session, replies: seq<Value>)
    requires Consistent(s)
    ensures Consistent(Converse(s, replies))
    decreases |replies|
  {
    if replies != [] {
      RunTurnConsistent(s, replies[0]);
      ConverseConsistent(Persisted(s, RunTurn(s, replies[0])), replies[1..]);
    }
  }

  /** From any consistent session, every profile the dialog stores has an age of -1 or within (0, 150). */
  lemma StoredAgeAlwaysValid(s: Session, replies: seq<Value>)
    requires Consistent(s)
    ensures Converse(s, replies).state.profile.Some? ==> ValidAge(Converse(s, replies).state.profile.value.age)
  {
    ConverseConsistent(s, replies);
  }

  /** No step that can run writes `values.name` or `values.transport`. */
  predicate NameAndTransportUnset(s: Session)
  {
    && s.state.values.name.None?
    && s.state.values.transport.None?
    && (s.state.profile.Some? ==> s.state.profile.value.name == Undefined && s.state.profile.value.transport == Undefined)
  }

  lemma {:induction false} ExecuteLeavesNameAndTransport(st: DialogState, i: nat, result: Value)
    requires NameAndTransportUnset(Session(st, Empty))
    ensures NameAndTransportUnset(Execute(st, i, result))
    decreases |WATERFALL| - i
  {
    if i < |WATERFALL| {
      var o := Transition(WATERFALL[i], st.(index := i), result);
      if o.action.Next? {
        ExecuteLeavesNameAndTransport(o.state, i + 1, o.action.result);
      }
    }
  }

  /**
   * In every conversation that starts from a session with no name or transport,
   * `values.name` and `values.transport` are never written, so a confirmed
   * summary stores both as undefined.
   */
  lemma {:induction false} ConfirmedProfileLacksNameAndTransport(s: Session, replies: seq<Value>)
    requires NameAndTransportUnset(s)
    ensures NameAndTransportUnset(Converse(s, replies))
    decreases |replies|
  {
    if replies != [] {
      var r := replies[0];
      if s.status.Waiting? && !(s.status.prompt == NUMBER_PROMPT && !AgePromptValidator(Recognize(r))) {
        ExecuteLeavesNameAndTransport(s.state, s.state.index + 1, r);
      } else if !s.status.Waiting? {
        ExecuteLeavesNameAndTransport(s.state.(values := NO_VALUES), 0, Undefined);
      }
      ConfirmedProfileLacksNameAndTransport(Persisted(s, RunTurn(s, r)), replies[1..]);
    }
  }

  /**
   * Where a fresh conversation can stand between turns: nothing is active yet,
   * or the name prompt waits; the store is still empty.
   */
  predicate StuckBeforeAge(s: Session)
  {
    && s.state.profile.None?
    && (s.status == Empty || (s.status == Waiting(NAME_PROMPT) && s.state.index == 0))
  }

  /**
   * Every reply to the waiting name prompt is stored as the size and echoed,
   * then the name-confirm step faults on the unregistered MESSAGE_PROMPT, and
   * the name prompt is still the one waiting on the next turn.
   */
  lemma RunTurnStuckBeforeAge(s: Session, reply: Value)
    requires StuckBeforeAge(s)
    ensures StuckBeforeAge(Persisted(s, RunTurn(s, reply)))
    ensures s.status.Waiting? ==> RunTurn(s, reply).status == Faulted(MESSAGE_PROMPT)
    ensures s.status.Waiting? ==> RunTurn(s, reply).state.values.size == Some(reply)
    ensures s.status.Waiting? ==> Persisted(s, RunTurn(s, reply)) == Session(s.state.(outbox := s.state.outbox + [SizeEcho(reply)]), s.status)
    ensures !s.status.Waiting? ==> RunTurn(s, reply).status == Waiting(NAME_PROMPT)
  {
    if s.status.Waiting? {
      var o := Transition(NameConfirm, s.state.(index := 1), reply);
      assert Execute(s.state, 1, reply) == Session(o.state, Faulted(MESSAGE_PROMPT));
    }
  }

  /**
   * As the steps are wired, no conversation gets past the name-confirm step:
   * the age is never asked and the profile store is never written.
   */
  lemma ConversationNeverStoresProfile(replies: seq<Value>)
    ensures StuckBeforeAge(Converse(INITIAL, replies))
    ensures Converse(INITIAL, replies).state.profile.None?
    ensures replies != [] ==> Converse(INITIAL, replies).status == Waiting(NAME_PROMPT)
  {
    ConverseStuck(INITIAL, replies);
  }

  lemma {:induction false} ConverseStuck(s: Session, replies: seq<Value>)
    requires StuckBeforeAge(s)
    ensures StuckBeforeAge(Converse(s, replies))
    ensures replies != [] ==> Converse(s, replies).status == Waiting(NAME_PROMPT)
    decreases |replies|
  {
    if replies != [] {
      RunTurnStuckBeforeAge(s, replies[0]);
      ConverseStuck(Persisted(s, RunTurn(s, replies[0])), replies[1..]);
    }
  }

  /**
   * A concrete run: the first message starts the dialog at the name prompt; the
   * reply "Ana" is taken as the size and echoed, the next prompt faults, and
   * the name prompt is left waiting.
   */
  lemma AnaScenario(first: Value)
    ensures Converse(INITIAL, [first]) == Session(DialogState(0, NO_VALUES, None, []), Waiting(NAME_PROMPT))
    ensures RunTurn(Converse(INITIAL, [first]), Str("Ana"))
         == Session(DialogState(1, NO_VALUES.(size := Some(Str("Ana"))), None, [SizeEcho(Str("Ana"))]), Faulted(MESSAGE_PROMPT))
    ensures Converse(INITIAL, [first, Str("Ana")])
         == Session(DialogState(0, NO_VALUES, None, [SizeEcho(Str("Ana"))]), Waiting(NAME_PROMPT))
  {
    var s1 := RunTurn(INITIAL, first);
    assert s1 == Session(DialogState(0, NO_VALUES, None, []), Waiting(NAME_PROMPT));
    assert Converse(INITIAL, [first]) == Converse(s1, []);
    var o := Transition(NameConfirm, s1.state.(index := 1), Str("Ana"));
    assert RunTurn(s1, Str("Ana")) == Session(o.state, Faulted(MESSAGE_PROMPT));
    assert [first, Str("Ana")][1..] == [Str("Ana")];
    assert Converse(s1, [Str("Ana")]) == Converse(Persisted(s1, RunTurn(s1, Str("Ana"))), []);
  }
}
