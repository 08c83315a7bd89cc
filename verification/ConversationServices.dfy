/** The conversation engine and the handoff service, each working on its transaction's session as `Conversations` specifies. */
module ConversationServices {
  import opened Wrappers
  import opened Errors
  import opened ConversationStateMachine
  import opened Conversations

  class ConversationSession {
    var conversations: map<Id, Conversation>
    var history: seq<HistoryEntry>
    var log: seq<Exchange>

    constructor (db: Db)
      ensures View() == db
    {
      conversations, history, log := db.conversations, db.history, db.log;
    }

    function View(): (r: Db)
      reads this
    {
      Db(conversations, history, log)
    }

    method RecordHistory(id: Id, from: Option<State>, to: State, context: Context)
      modifies this`history
      ensures history == old(history) + [HistoryEntry(id, from, to, context)]
    {
      history := history + [HistoryEntry(id, from, to, context)];
    }

    // ----- the engine -----

    /** The conversation of the thread, opened at the main menu if there is none. */
    method LoadConversation(ev: InboundEvent) returns (r: Result<Conversation, Error>)
      requires ThreadsUnique(conversations)
      modifies this`conversations, this`history
      ensures ThreadKnown(old(View()), ev) ==>
                View() == old(View()) && r == Success(conversations[ByThread(View(), ev)])
      ensures !ThreadKnown(old(View()), ev) && ev.newId in old(conversations) ==> r == Failure(DUPLICATE_KEY)
      ensures !ThreadKnown(old(View()), ev) && ev.newId !in old(conversations) ==>
                && r == Success(Opened(ev))
                && View() == Put(old(View()), Opened(ev), [HistoryEntry(ev.newId, None, MAIN_MENU, map[])], [])
    {
      if ThreadKnown(View(), ev) {
        var id :| id in conversations && OnThread(conversations[id], ev);
        assert id == ByThread(View(), ev) by {
          assert SameThread(conversations[id], conversations[ByThread(View(), ev)]);
        }
        return Success(conversations[id]);
      }
      if ev.newId in conversations {
        return Failure(DUPLICATE_KEY);
      }
      var created := Conversation(ev.newId, ev.tenant, ev.event.channel, ev.thread, MAIN_MENU, map[], BOT, None, 0);
      conversations := conversations[ev.newId := created];
      RecordHistory(ev.newId, None, MAIN_MENU, map[]);
      return Success(created);
    }

    method ProcessTransaction(ev: InboundEvent) returns (refused: Option<Error>)
      requires ThreadsUnique(conversations)
      requires forall id :: id in conversations ==> conversations[id].id == id
      modifies this
      ensures match ReceiveMessage(old(View()), ev)
              case Success(db) => refused.None? && View() == db
              case Failure(e) => refused == Some(e)
    {
      hide TransitionConversation;
      if exists i :: 0 <= i < |log| && log[i].event == ev.event {
        return Some(DUPLICATE_KEY);
      }
      var loaded := LoadConversation(ev);
      if loaded.Failure? {
        return Some(loaded.error);
      }
      var c := loaded.value;
      if c.control.HUMAN? || c.state.HUMAN_HANDOFF? {
        log := log + [Exchange(ev.event, c.id, ev.input, None, [], None)];
        return None;
      }
      var t := TransitionConversation(c.state, c.context, ev.input);
      conversations := conversations[c.id := c.(state := t.state, context := t.context, revision := c.revision + 1)];
      if t.state != c.state {
        RecordHistory(c.id, Some(c.state), t.state, t.context);
      } else {
        assert history == history + [];
      }
      log := log + [Exchange(ev.event, c.id, ev.input, Some(c.state), t.replies, t.command)];
      return None;
    }

    // ----- the handoff service -----

    method Load(tenant: Id, id: Id) returns (r: Result<Conversation, Error>)
      ensures if Found(View(), tenant, id) then r == Success(conversations[id]) else r == Failure(CONVERSATION_NOT_FOUND)
    {
      if id !in conversations || conversations[id].tenant != tenant {
        return Failure(CONVERSATION_NOT_FOUND);
      }
      return Success(conversations[id]);
    }

    method UpdateControl(id: Id, state: State, control: Control, assignee: Option<Id>, context: Context)
      requires id in conversations && conversations[id].id == id
      modifies this`conversations
      ensures conversations == old(conversations)[id := Controlled(old(conversations)[id], state, control, assignee, context)]
      ensures conversations.Keys == old(conversations.Keys)
      ensures var c, was := conversations[id], old(conversations)[id];
              && c.state == state && c.control == control && c.assignedTo == assignee && c.context == context
              && c.id == was.id && SameThread(c, was) && c.revision > was.revision
      ensures forall other :: other in conversations && other != id ==> conversations[other] == old(conversations)[other]
    {
      var c := conversations[id];
      conversations := conversations[id := c.(state := state, control := control, assignedTo := assignee, context := context,
                                              revision := c.revision + 1)];
    }

    method RequestIn(tenant: Id, id: Id, actorActive: bool) returns (refused: Option<Error>)
      requires id in conversations ==> conversations[id].id == id
      modifies this`conversations, this`history
      ensures match RequestHandoff(old(View()), tenant, id, actorActive)
              case Success(db) => refused.None? && View() == db
              case Failure(e) => refused == Some(e) && View() == old(View())
    {
      if !actorActive {
        return Some(HANDOFF_ASSIGNEE_INVALID);
      }
      var loaded := Load(tenant, id);
      if loaded.Failure? {
        return Some(loaded.error);
      }
      var c := loaded.value;
      if c.control.HUMAN? {
        return Some(CONVERSATION_ALREADY_HUMAN);
      }
      if c.state.HUMAN_HANDOFF? {
        return None;
      }
      UpdateControl(id, HUMAN_HANDOFF, BOT, None, c.context);
      RecordHistory(id, Some(c.state), HUMAN_HANDOFF, c.context);
      assert log == log + [];
      return None;
    }

    method ClaimIn(tenant: Id, id: Id, actor: Id, actorActive: bool) returns (refused: Option<Error>)
      requires id in conversations ==> conversations[id].id == id
      modifies this`conversations
      ensures match ClaimHandoff(old(View()), tenant, id, actor, actorActive)
              case Success(db) => refused.None? && View() == db
              case Failure(e) => refused == Some(e) && View() == old(View())
    {
      if !actorActive {
        return Some(HANDOFF_ASSIGNEE_INVALID);
      }
      var loaded := Load(tenant, id);
      if loaded.Failure? {
        return Some(loaded.error);
      }
      var c := loaded.value;
      if c.control.HUMAN? && c.assignedTo == Some(actor) {
        return None;
      }
      if !c.control.BOT? || !c.state.HUMAN_HANDOFF? {
        return Some(HANDOFF_NOT_CLAIMABLE);
      }
      UpdateControl(id, HUMAN_HANDOFF, HUMAN, Some(actor), c.context);
      assert history == history + [] && log == log + [];
      return None;
    }

    method ReassignIn(tenant: Id, id: Id, actorActive: bool, assignee: Id, assigneeActive: bool) returns (refused: Option<Error>)
      requires id in conversations ==> conversations[id].id == id
      modifies this`conversations
      ensures match ReassignHandoff(old(View()), tenant, id, actorActive, assignee, assigneeActive)
              case Success(db) => refused.None? && View() == db
              case Failure(e) => refused == Some(e) && View() == old(View())
    {
      if !actorActive {
        return Some(HANDOFF_ASSIGNEE_INVALID);
      }
      var loaded := Load(tenant, id);
      if loaded.Failure? {
        return Some(loaded.error);
      }
      var c := loaded.value;
      if !c.control.HUMAN? {
        return Some(CONVERSATION_NOT_HUMAN);
      }
      if !assigneeActive {
        return Some(HANDOFF_ASSIGNEE_INVALID);
      }
      UpdateControl(id, c.state, HUMAN, Some(assignee), c.context);
      assert history == history + [] && log == log + [];
      return None;
    }

    method ReleaseIn(tenant: Id, id: Id, actorActive: bool) returns (refused: Option<Error>)
      requires id in conversations ==> conversations[id].id == id
      modifies this`conversations, this`history
      ensures match ReleaseHandoff(old(View()), tenant, id, actorActive)
              case Success(db) => refused.None? && View() == db
              case Failure(e) => refused == Some(e) && View() == old(View())
    {
      if !actorActive {
        return Some(HANDOFF_ASSIGNEE_INVALID);
      }
      var loaded := Load(tenant, id);
      if loaded.Failure? {
        return Some(loaded.error);
      }
      var c := loaded.value;
      if !c.control.HUMAN? {
        return Some(CONVERSATION_NOT_HUMAN);
      }
      UpdateControl(id, MAIN_MENU, BOT, None, map[]);
      RecordHistory(id, Some(c.state), MAIN_MENU, map[]);
      assert log == log + [];
      return None;
    }
  }
}
