/** The channel layer the consumers rely on, modelled sequentially: a map from
    group name to the set of channel names in it (group_add, group_discard) and,
    per channel, the sequence of frames sent to its socket. group_send appends
    the rendered event to the outbox of every member of the group. */
module Channels {
  import opened Frames

  type ChannelName = string
  type Groups = map<string, set<ChannelName>>
  type Outboxes = map<ChannelName, seq<Frame>>

  /** The members of a group; a group nobody joined is empty. */
  function Members(groups: Groups, group: string): set<ChannelName> {
    if group in groups then groups[group] else {}
  }

  /** The frames sent so far to a channel. */
  function Outbox(outboxes: Outboxes, channel: ChannelName): seq<Frame> {
    if channel in outboxes then outboxes[channel] else []
  }

  /** group_add: exactly this channel joins exactly this group. */
  function Joined(groups: Groups, group: string, channel: ChannelName): (g: Groups)
    ensures Members(g, group) == Members(groups, group) + {channel}
    ensures forall other :: other != group ==> Members(g, other) == Members(groups, other)
  {
    groups[group := Members(groups, group) + {channel}]
  }

  /** group_discard: exactly this channel leaves exactly this group; leaving a
      group one is not in changes no membership. */
  function Left(groups: Groups, group: string, channel: ChannelName): (g: Groups)
    ensures Members(g, group) == Members(groups, group) - {channel}
    ensures forall other :: other != group ==> Members(g, other) == Members(groups, other)
  {
    groups[group := Members(groups, group) - {channel}]
  }

  /** Leaving right after joining restores the group when the channel was not
      a member before. */
  lemma LeftUndoesJoined(groups: Groups, group: string, channel: ChannelName, other: string)
    requires channel !in Members(groups, group)
    ensures Members(Left(Joined(groups, group, channel), group, channel), other) == Members(groups, other)
  {
  }

  /** The outboxes after `frame` is delivered to every channel in `members`:
      members gain the frame at the end, every other channel keeps its outbox. */
  function Delivered(outboxes: Outboxes, members: set<ChannelName>, frame: Frame): (o: Outboxes)
    ensures forall c :: c in members ==> Outbox(o, c) == Outbox(outboxes, c) + [frame]
    ensures forall c :: c !in members ==> Outbox(o, c) == Outbox(outboxes, c)
  {
    map c | c in outboxes.Keys + members :: if c in members then Outbox(outboxes, c) + [frame] else outboxes[c]
  }

  /** Delivering to one more channel is one more append. */
  lemma DeliveredStep(outboxes: Outboxes, done: set<ChannelName>, channel: ChannelName, frame: Frame)
    requires channel !in done
    ensures Delivered(outboxes, done + {channel}, frame)
         == Delivered(outboxes, done, frame)[channel := Outbox(outboxes, channel) + [frame]]
  {
    var lhs := Delivered(outboxes, done + {channel}, frame);
    var rhs := Delivered(outboxes, done, frame)[channel := Outbox(outboxes, channel) + [frame]];
    assert lhs.Keys == rhs.Keys;
    forall c | c in lhs.Keys
      ensures lhs[c] == rhs[c]
    {
      assert Outbox(lhs, c) == Outbox(rhs, c);
    }
  }

  /** Delivery to nobody changes nothing. */
  lemma DeliveredToNobody(outboxes: Outboxes, frame: Frame)
    ensures Delivered(outboxes, {}, frame) == outboxes
  {
    var o := Delivered(outboxes, {}, frame);
    assert o.Keys == outboxes.Keys;
    forall c | c in o.Keys
      ensures o[c] == outboxes[c]
    {
      assert Outbox(o, c) == Outbox(outboxes, c);
    }
  }

  /** The fan-out loop of group_send: one append per member, in any order. */
  method FanOut(outboxes: Outboxes, members: set<ChannelName>, frame: Frame) returns (o: Outboxes)
    ensures o == Delivered(outboxes, members, frame)
  {
    o := outboxes;
    DeliveredToNobody(outboxes, frame);
    var done: set<ChannelName> := {};
    while members - done != {}
      invariant done <= members
      invariant o == Delivered(outboxes, done, frame)
      decreases members - done
    {
      var channel :| channel in members - done;
      DeliveredStep(outboxes, done, channel, frame);
      o := o[channel := Outbox(o, channel) + [frame]];
      done := done + {channel};
    }
    assert done == members;
  }

  /** Two broadcasts to a group reach every member in the order they were sent. */
  lemma DeliveredInOrder(outboxes: Outboxes, members: set<ChannelName>, first: Frame, second: Frame, c: ChannelName)
    requires c in members
    ensures Outbox(Delivered(Delivered(outboxes, members, first), members, second), c)
         == Outbox(outboxes, c) + [first, second]
  {
  }

  /** The process-wide channel layer plus the sockets' outboxes. */
  class ChannelLayer {
    var groups: Groups
    var outboxes: Outboxes

    constructor ()
      ensures groups == map[] && outboxes == map[]
    {
      groups, outboxes := map[], map[];
    }

    method GroupAdd(group: string, channel: ChannelName)
      modifies this`groups
      ensures groups == Joined(old(groups), group, channel)
    {
      groups := Joined(groups, group, channel);
    }

    method GroupDiscard(group: string, channel: ChannelName)
      modifies this`groups
      ensures groups == Left(old(groups), group, channel)
    {
      groups := Left(groups, group, channel);
    }

    /** group_send followed by each member's handler: the rendered event lands
        at the end of every member's outbox. */
    method GroupSend(group: string, event: Event)
      modifies this`outboxes
      ensures outboxes == Delivered(old(outboxes), Members(groups, group), Render(event))
    {
      outboxes := FanOut(outboxes, Members(groups, group), Render(event));
    }

    /** self.send: a frame written to one channel's own socket. */
    method Send(channel: ChannelName, frame: Frame)
      modifies this`outboxes
      ensures outboxes == old(outboxes)[channel := Outbox(old(outboxes), channel) + [frame]]
    {
      outboxes := outboxes[channel := Outbox(outboxes, channel) + [frame]];
    }
  }
}
