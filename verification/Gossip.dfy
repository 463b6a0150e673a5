/** The gossip validator: which consensus messages are processed, kept and sent on, by view. */
module GossipFilter {
  import opened Types

  datatype Validation = Discard | ProcessAndKeep

  function MessageView(m: Message): View {
    match m
    case ProposeMsg(p) => p.view
    case VoteMsg(v) => v.view
    case TimeoutMsg(t) => t.view
    case TCMsg(tc) => tc.view
    case _ => 0
  }

  class GossipValidator {
    var view: View

    constructor ()
      ensures view == 0
    {
      view := 0;
    }

    method SetView(newView: View)
      modifies this
      ensures view == newView
    {
      view := newView;
    }

    /** Incoming messages; data is None when it does not decode. */
    method Validate(data: Option<Message>) returns (r: Validation)
      ensures r == ProcessAndKeep <==> InWindow(view, data)
    {
      if data.Some? {
        var messageView := MessageView(data.value);
        if view > 1 && messageView < view - 1 {
          return Discard;
        }
        return ProcessAndKeep;
      }
      return Discard;
    }

    /** Kept messages that may be dropped. */
    method MessageExpired(data: Option<Message>) returns (r: bool)
      ensures r <==> !InWindow(view, data)
    {
      if data.Some? {
        var messageView := MessageView(data.value);
        if view >= 1 && messageView < view - 1 {
          return true;
        }
        return false;
      }
      return true;
    }

    /** Outgoing messages. */
    method MessageAllowed(rightTopic: bool, data: Option<Message>) returns (r: bool)
      ensures r <==> rightTopic && InWindow(view, data)
    {
      if !rightTopic {
        return false;
      }
      if data.Some? {
        var messageView := MessageView(data.value);
        if view >= 1 && messageView < view - 1 {
          return false;
        }
        return true;
      }
      return false;
    }
  }

  /** At most one view behind; a message that names no view counts as one of view 0. */
  predicate AtMostOneBehind(current: View, m: Message) {
    || (m.ProposeMsg? && m.proposal.view + 1 >= current)
    || (m.VoteMsg? && m.vote.view + 1 >= current)
    || (m.TimeoutMsg? && m.timeout.view + 1 >= current)
    || (m.TCMsg? && m.tc.view + 1 >= current)
    || ((m.SyncRequest? || m.Phantom?) && current <= 1)
  }

  /** The one window all three filters agree on. */
  predicate InWindow(current: View, data: Option<Message>) {
    data.Some? && AtMostOneBehind(current, data.value)
  }
}
