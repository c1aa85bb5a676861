/**
 * The bot that hosts the dialog: it refuses to be built without its three
 * collaborators, creates the dialog-state property, and registers three
 * handlers whose side effects are recorded, in order, on the turn context.
 */
module DialogBot {
  import opened Js

  /** The conversation state; only the properties created on it are modelled. */
  class ConversationState {
    var properties: seq<string>

    constructor ()
      ensures properties == []
    {
      properties := [];
    }

    method CreateProperty(name: string) returns (p: PropertyAccessor)
      modifies this
      ensures properties == old(properties) + [name]
      ensures p == PropertyAccessor(name)
    {
      properties := properties + [name];
      p := PropertyAccessor(name);
    }
  }

  /** The user state, passed through unchanged. */
  class UserState {
    constructor () {}
  }

  /** The dialog to run, passed through unchanged. */
  class Dialog {
    constructor () {}
  }

  datatype PropertyAccessor = PropertyAccessor(name: string)

  const DIALOG_STATE: string := "DialogState"

  /** Which constructor argument was missing; the thrown error names it. */
  datatype MissingArgument = MissingConversationState | MissingUserState | MissingDialog

  datatype ChannelAccount = ChannelAccount(id: string)

  datatype Activity = Activity(membersAdded: seq<ChannelAccount>, recipient: ChannelAccount)

  /** What a handler does, in the order it does it. */
  datatype Effect =
    | Welcome                                          // `sendActivity(message.welcome)`
    | RanDialog(dialog: Dialog, accessor: PropertyAccessor)
    | SavedConversationState(force: bool)
    | SavedUserState(force: bool)
    | CalledNext

  /** The turn context a handler receives: the inbound activity and the effects so far. */
  class TurnContext {
    const activity: Activity
    var effects: seq<Effect>

    constructor (activity: Activity)
      ensures this.activity == activity && effects == []
    {
      this.activity := activity;
      effects := [];
    }
  }

  /**
   * The constructor's guard: the conversation state is checked first, then the
   * user state, then the dialog; the first one missing is reported.
   */
  function FirstMissing(conversationState: Option<ConversationState>, userState: Option<UserState>, dialog: Option<Dialog>): (r: Option<MissingArgument>)
    ensures r == Some(MissingConversationState) <==> conversationState.None?
    ensures r == Some(MissingUserState) <==> conversationState.Some? && userState.None?
    ensures r == Some(MissingDialog) <==> conversationState.Some? && userState.Some? && dialog.None?
    ensures r == None <==> conversationState.Some? && userState.Some? && dialog.Some?
  {
    if conversationState.None? then Some(MissingConversationState)
    else if userState.None? then Some(MissingUserState)
    else if dialog.None? then Some(MissingDialog)
    else None
  }

  /** One welcome for every added member whose id differs from the recipient's, in list order. */
  function Welcomes(members: seq<ChannelAccount>, recipientId: string): seq<Effect>
    decreases |members|
  {
    if members == [] then []
    else
      var n := |members| - 1;
      Welcomes(members[..n], recipientId) + (if members[n].id != recipientId then [Welcome] else [])
  }

  /** The positions of the added members that are not the recipient. */
  function OtherMembers(members: seq<ChannelAccount>, recipientId: string): set<int>
  {
    set i | 0 <= i < |members| && members[i].id != recipientId
  }

  /**
   * As many welcomes as added members other than the recipient, and nothing
   * else: none for an empty list, none when only the bot itself was added.
   */
  lemma {:induction false} WelcomeCount(members: seq<ChannelAccount>, recipientId: string)
    ensures |Welcomes(members, recipientId)| == |OtherMembers(members, recipientId)|
    ensures forall k :: 0 <= k < |Welcomes(members, recipientId)| ==> Welcomes(members, recipientId)[k] == Welcome
    ensures (forall i :: 0 <= i < |members| ==> members[i].id == recipientId) ==> Welcomes(members, recipientId) == []
    decreases |members|
  {
    if members != [] {
      var n := |members| - 1;
      WelcomeCount(members[..n], recipientId);
      var before := OtherMembers(members[..n], recipientId);
      assert n !in before;
      if members[n].id != recipientId {
        assert OtherMembers(members, recipientId) == before + {n};
      } else {
        assert OtherMembers(members, recipientId) == before;
      }
      if forall i :: 0 <= i < |members| ==> members[i].id == recipientId {
        assert OtherMembers(members, recipientId) == {};
      }
    }
  }

  datatype Construction = Built(bot: DialogBot) | Thrown(missing: MissingArgument)

  class DialogBot {
    const conversationState: ConversationState
    const userState: UserState
    const dialog: Dialog
    const dialogState: PropertyAccessor

    constructor (conversationState: ConversationState, userState: UserState, dialog: Dialog)
      modifies conversationState
      ensures this.conversationState == conversationState
      ensures this.userState == userState
      ensures this.dialog == dialog
      ensures conversationState.properties == old(conversationState.properties) + [DIALOG_STATE]
      ensures dialogState == PropertyAccessor(DIALOG_STATE)
    {
      this.conversationState := conversationState;
      this.userState := userState;
      this.dialog := dialog;
      var p := conversationState.CreateProperty(DIALOG_STATE);
      this.dialogState := p;
    }

    /** `new DialogBot(...)`: throws for the first missing argument, else builds the bot. */
    static method Create(conversationState: Option<ConversationState>, userState: Option<UserState>, dialog: Option<Dialog>)
      returns (c: Construction)
      modifies if conversationState.Some? then {conversationState.value} else {}
      ensures c.Thrown? <==> FirstMissing(conversationState, userState, dialog).Some?
      ensures c.Thrown? ==> Some(c.missing) == FirstMissing(conversationState, userState, dialog)
      ensures c.Thrown? && conversationState.Some? ==>
                conversationState.value.properties == old(conversationState.value.properties)
      ensures c.Built? ==>
                && fresh(c.bot)
                && Some(c.bot.conversationState) == conversationState
                && Some(c.bot.userState) == userState
                && Some(c.bot.dialog) == dialog
                && c.bot.dialogState == PropertyAccessor(DIALOG_STATE)
                && conversationState.value.properties == old(conversationState.value.properties) + [DIALOG_STATE]
    {
      var missing := FirstMissing(conversationState, userState, dialog);
      if missing.Some? {
        return Thrown(missing.value);
      }
      var bot := new DialogBot(conversationState.value, userState.value, dialog.value);
      c := Built(bot);
    }

    /**
     * The message handler: runs the dialog with the dialog-state property, then
     * the next handler. When the run throws (`runThrew`), the next handler is
     * not reached.
     */
    method OnMessage(context: TurnContext, runThrew: bool)
      modifies context
      ensures context.effects
           == old(context.effects) + [RanDialog(dialog, dialogState)] + (if runThrew then [] else [CalledNext])
    {
      context.effects := context.effects + [RanDialog(dialog, dialogState)];
      if !runThrew {
        context.effects := context.effects + [CalledNext];
      }
    }

    /** The dialog handler: saves the conversation state, then the user state, then the next handler. */
    method OnDialog(context: TurnContext)
      modifies context
      ensures context.effects == old(context.effects) + [SavedConversationState(false), SavedUserState(false), CalledNext]
    {
      context.effects := context.effects + [SavedConversationState(false)];
      context.effects := context.effects + [SavedUserState(false)];
      context.effects := context.effects + [CalledNext];
    }

    /** The members-added handler: welcomes every added member other than the bot, then the next handler. */
    method OnMembersAdded(context: TurnContext)
      modifies context
      ensures context.effects
           == old(context.effects) + Welcomes(context.activity.membersAdded, context.activity.recipient.id) + [CalledNext]
    {
      var membersAdded := context.activity.membersAdded;
      var cnt := 0;
      while cnt < |membersAdded|
        invariant 0 <= cnt <= |membersAdded|
        invariant context.effects == old(context.effects) + Welcomes(membersAdded[..cnt], context.activity.recipient.id)
      {
        if membersAdded[cnt].id != context.activity.recipient.id {
          context.effects := context.effects + [Welcome];
        }
        assert membersAdded[..cnt + 1][..cnt] == membersAdded[..cnt];
        cnt := cnt + 1;
      }
      assert membersAdded[..cnt] == membersAdded;
      context.effects := context.effects + [CalledNext];
    }
  }
}
