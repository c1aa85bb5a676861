/**
 * The step functions as `userProfileDialog.js` writes them: methods that assign into the
 * shared values bag, send messages one after another, and overwrite the fields
 * of the profile fetched from the user state. Each is proved to leave exactly
 * the state, and return exactly the action, of its pure counterpart.
 */
module WaterfallSteps {
  import opened Js
  import D = UserProfileDialog

  /** The `step` object a waterfall step receives, with the turn's outbox and the USER_PROFILE property. */
  class StepContext {
    var index: nat
    var values: D.Values
    var profile: Option<D.Profile>
    var outbox: seq<D.Message>

    constructor (st: D.DialogState)
      ensures State() == st
    {
      index, values, profile, outbox := st.index, st.values, st.profile, st.outbox;
    }

    function State(): D.DialogState
      reads this
    {
      D.DialogState(index, values, profile, outbox)
    }

    method NameStep() returns (a: D.Action)
      ensures a == D.NameStep(State()).action
    {
      a := D.Prompt(D.NAME_PROMPT, D.NAME_OPTIONS);
    }

    method SizeStep(result: Value) returns (a: D.Action)
      modifies this
      ensures State() == D.SizeStep(old(State()), result).state
      ensures a == D.SizeStep(old(State()), result).action
    {
      values := values.(name := Some(result));
      outbox := outbox + [D.Hello(result)];
      a := D.Prompt(D.MESSAGE_PROMPT, D.SIZE_OPTIONS);
    }

    method NameConfirmStep(result: Value) returns (a: D.Action)
      modifies this
      ensures State() == D.NameConfirmStep(old(State()), result).state
      ensures a == D.NameConfirmStep(old(State()), result).action
    {
      values := values.(size := Some(result));
      outbox := outbox + [D.SizeEcho(result)];
      a := D.Prompt(D.MESSAGE_PROMPT, D.AGE_WANTED_OPTIONS);
    }

    method AgeStep(result: Value) returns (a: D.Action)
      ensures a == D.AgeStep(State(), result).action
    {
      if Truthy(result) {
        a := D.Prompt(D.NUMBER_PROMPT, D.AGE_OPTIONS);
      } else {
        a := D.Next(Num(-1));
      }
    }

    method ConfirmStep(result: Value) returns (a: D.Action)
      modifies this
      ensures State() == D.ConfirmStep(old(State()), result).state
      ensures a == D.ConfirmStep(old(State()), result).action
    {
      values := values.(age := Some(result));
      var msg := if values.age.value == Num(-1) then D.AgeUnknown else D.AgeEcho(values.age.value);
      outbox := outbox + [msg];
      a := D.Prompt(D.CONFIRM_PROMPT, D.CONFIRM_OPTIONS);
    }

    /**
     * On a truthy result, fetches the profile (storing `blank` first when there is
     * none), overwrites its transport, name and age, and sends the summary. The
     * state afterwards does not depend on `blank` or on the profile stored before.
     */
    method SummaryStep(result: Value, blank: D.Profile) returns (a: D.Action)
      modifies this
      ensures State() == D.SummaryStep(old(State()), result).state
      ensures a == D.SummaryStep(old(State()), result).action
    {
      if Truthy(result) {
        var p := if profile.Some? then profile.value else blank;
        profile := Some(p);
        p := p.(transport := OrUndefined(values.transport));
        p := p.(name := OrUndefined(values.name));
        p := p.(age := OrUndefined(values.age));
        profile := Some(p);
        var ageClause := if p.age != Num(-1) then Some(p.age) else None;
        outbox := outbox + [D.Summary(p.transport, p.name, ageClause)];
      } else {
        outbox := outbox + [D.NotStored];
      }
      a := D.End;
    }
  }
}
