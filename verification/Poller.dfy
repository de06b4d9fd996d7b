/** nwl::Channel and nwl::EpollPoller: the interest set kept in user space and the one in the kernel. */
module Poller {
  datatype Option<T> = None | Some(value: T)

  /** kNew, kAdded, kDeleted. */
  datatype Index = New | Added | Deleted

  /** The event mask: read is EPOLLIN | EPOLLPRI, write is EPOLLOUT. */
  datatype Events = Events(read: bool, write: bool)

  const NO_EVENTS := Events(false, false)

  datatype CtlOp = CtlAdd | CtlMod | CtlDel

  /** One fd as the three parties see it: the Channel (events, index), channels_ (inMap) and the
      kernel (kernel). badCtl records an epoll_ctl the kernel had to reject. */
  datatype Chan = Chan(events: Events, index: Index, inMap: bool, kernel: Option<Events>, badCtl: bool)

  const FRESH := Chan(NO_EVENTS, New, false, None, false)

  /** EpollPoller::update: ADD fails on a present fd, MOD and DEL on an absent one. */
  function Ctl(c: Chan, op: CtlOp): Chan {
    match op
    case CtlAdd => if c.kernel.Some? then c.(badCtl := true) else c.(kernel := Some(c.events))
    case CtlMod => if c.kernel.None? then c.(badCtl := true) else c.(kernel := Some(c.events))
    case CtlDel => if c.kernel.None? then c.(badCtl := true) else c.(kernel := None)
  }

  function Updated(c: Chan): Chan {
    if c.index != Added then
      Ctl(c.(inMap := c.inMap || c.index == New, index := Added), CtlAdd)
    else if c.events == NO_EVENTS then
      Ctl(c, CtlDel).(index := Deleted)
    else
      Ctl(c, CtlMod)
  }

  function Removed(c: Chan): Chan {
    var c' := if c.index == Added then Ctl(c, CtlDel) else c;
    c'.(inMap := false, index := New)
  }

  /** The two assertions at the top of removeChannel. */
  predicate RemoveAsserts(c: Chan) {
    c.inMap && c.events == NO_EVENTS
  }

  datatype Op = EnableReading | EnableWriting | DisableWriting | DisableAll | Remove

  function Mask(e: Events, op: Op): Events {
    match op
    case EnableReading => e.(read := true)
    case EnableWriting => e.(write := true)
    case DisableWriting => e.(write := false)
    case DisableAll => NO_EVENTS
    case Remove => e
  }

  function Apply(c: Chan, op: Op): Chan {
    if op == Remove then Removed(c) else Updated(c.(events := Mask(c.events, op)))
  }

  function ApplyAll(c: Chan, ops: seq<Op>): Chan {
    if ops == [] then c else Apply(ApplyAll(c, ops[..|ops| - 1]), ops[|ops| - 1])
  }

  /** User space and kernel agree. */
  ghost predicate Mirror(c: Chan) {
    && (c.index == Added <==> c.kernel == Some(c.events))
    && (c.index != Added ==> c.kernel == None)
    && (c.index == Deleted ==> c.events == NO_EVENTS)
    && (c.index == New <==> !c.inMap)
    && !c.badCtl
  }

  /** Every sequence of operations on a channel keeps the mirror, so no epoll_ctl is ever rejected. */
  lemma {:induction false} MirrorAlways(ops: seq<Op>)
    ensures Mirror(ApplyAll(FRESH, ops))
  {
    if ops != [] {
      MirrorAlways(ops[..|ops| - 1]);
    }
  }

  /** What each call makes of the mask: enableReading, enableWriting, disableWriting, disableAll. */
  lemma MaskEffect(c: Chan)
    ensures Apply(c, EnableReading).events == Events(true, c.events.write)
    ensures Apply(c, EnableWriting).events == Events(c.events.read, true)
    ensures Apply(c, DisableWriting).events == Events(c.events.read, false)
    ensures Apply(c, DisableAll).events == Events(false, false)
    ensures Apply(c, Remove).events == c.events
  {
  }

  /** And what the kernel and the table hold after it: the new mask, unless it is empty and the fd was
      watched; after a removal nothing. */
  lemma WatchEffect(c: Chan, op: Op)
    requires Mirror(c)
    ensures var c' := Apply(c, op);
      && Mirror(c')
      && (op == Remove ==> c'.kernel == None && !c'.inMap)
      && (op != Remove ==> c'.inMap)
      && (op != Remove && (c'.events.read || c'.events.write || c.kernel == None) ==> c'.kernel == Some(c'.events))
      && (op != Remove && !c'.events.read && !c'.events.write && c.kernel != None ==> c'.kernel == None)
  {
  }

  /** When the kernel is left watching an fd with an empty mask: exactly when a disabling call that
      ends with no event reaches a channel the kernel was not watching. */
  lemma EmptyMaskExact(c: Chan, op: Op)
    requires Mirror(c)
    ensures Apply(c, op).kernel == Some(NO_EVENTS) <==>
            op != Remove && Mask(c.events, op) == NO_EVENTS && c.index != Added
  {
  }

  /** It happens on the ordinary peer-close path: handleClose and connectDestroyed both disable. */
  lemma EmptyMaskExample()
    ensures ApplyAll(FRESH, [EnableReading, DisableAll, DisableAll]).kernel == Some(NO_EVENTS)
    ensures ApplyAll(FRESH, [EnableReading, DisableAll, DisableAll, Remove]) == FRESH
  {
    var a, b, c, d := [EnableReading], [EnableReading, DisableAll], [EnableReading, DisableAll, DisableAll],
      [EnableReading, DisableAll, DisableAll, Remove];
    assert a[..0] == [] && b[..1] == a && c[..2] == b && d[..3] == c;
    assert ApplyAll(FRESH, a) == Apply(FRESH, EnableReading);
    assert ApplyAll(FRESH, b) == Apply(ApplyAll(FRESH, a), DisableAll);
  }

  /** The mirror is there again, whatever mask the kernel had. */
  lemma UpdatedMirrors(c: Chan)
    requires exists e :: Mirror(c.(events := e))
    ensures Mirror(Updated(c)) && !Updated(c).badCtl && !c.badCtl
    ensures c.kernel.Some? ==> c.inMap
    ensures c.index == Added ==> c.kernel.Some? && c.inMap
  {
  }

  // ---- the objects ----

  class Channel {
    const fd: int
    var events: Events
    var index: Index

    constructor (fd: int)
      ensures this.fd == fd && events == NO_EVENTS && index == New
    {
      this.fd := fd;
      events := NO_EVENTS;
      index := New;
    }

    /** events_ changed: tell the poller. */
    method Update(poller: EpollPoller, op: Op)
      requires poller.Valid() && this in poller.all && op != Remove
      modifies this, poller
      ensures poller.Valid() && poller.all == old(poller.all)
      ensures poller.View(this) == Apply(old(poller.View(this)), op)
      ensures forall c <- poller.all :: c != this ==> poller.View(c) == old(poller.View(c))
    {
      ghost var before := poller.View(this);
      match op {
        case EnableReading => events := events.(read := true);
        case EnableWriting => events := events.(write := true);
        case DisableWriting => events := events.(write := false);
        case DisableAll => events := NO_EVENTS;
      }
      assert poller.View(this).(events := before.events) == before && Mirror(before);
      poller.UpdateChannel(this);
    }
  }

  class EpollPoller {
    var channels: map<int, Channel>
    /** The kernel's interest list: fd to the mask and the Channel pointer kept in data.ptr. */
    var interest: map<int, (Events, Channel)>
    var rejected: bool
    /** The channels that live on this loop. Their fds are distinct. */
    ghost var all: set<Channel>

    ghost function View(c: Channel): Chan
      reads this, c
    {
      Chan(c.events, c.index, c.fd in channels, if c.fd in interest then Some(interest[c.fd].0) else None, rejected)
    }

    /** Table entries and kernel pointers lead back to the owning channel. */
    ghost predicate Linked()
      reads this, all
    {
      && (forall c, d :: c in all && d in all && c.fd == d.fd ==> c == d)
      && (forall fd <- channels :: channels[fd] in all && channels[fd].fd == fd)
      && (forall fd <- interest :: fd in channels && interest[fd].1 == channels[fd])
    }

    ghost predicate Valid()
      reads this, all
    {
      && Linked() && !rejected
      && (forall c <- all :: Mirror(View(c)))
    }

    constructor ()
      ensures Valid() && all == {}
    {
      channels, interest, rejected, all := map[], map[], false, {};
    }

    /** A channel built for an fd that is in use by no other channel of the loop. */
    ghost method Adopt(c: Channel)
      requires Valid() && forall d <- all :: d.fd != c.fd
      requires c.index == New && c.events == NO_EVENTS
      modifies this`all
      ensures Valid() && all == old(all) + {c} && View(c) == FRESH
    {
      assert c.fd !in channels && c.fd !in interest;
      all := all + {c};
    }

    /** A channel that has been removed is destroyed with its owner, and its fd closed. */
    ghost method Forget(c: Channel)
      requires Valid() && c in all && c.index == New
      modifies this`all
      ensures Valid() && all == old(all) - {c}
      ensures c.fd !in channels && c.fd !in interest
      ensures forall d <- all :: d.fd != c.fd && View(d) == old(View(d))
    {
      assert Mirror(View(c));
      all := all - {c};
    }

    /** accept() may hand out the fd of a connection that is gone: its channel starts afresh. */
    ghost method ReuseFd(gone: Channel, next: Channel)
      requires Valid() && gone in all && gone.index == New && next !in all && next.fd == gone.fd
      requires next.index == New && next.events == NO_EVENTS
      modifies this`all
      ensures Valid() && all == old(all) - {gone} + {next} && View(next) == FRESH
      ensures forall d <- all :: d != next ==> View(d) == old(View(d))
    {
      Forget(gone);
      Adopt(next);
    }

    method EpollCtl(op: CtlOp, channel: Channel)
      modifies this`interest, this`rejected
      ensures View(channel) == Ctl(old(View(channel)), op)
      ensures rejected == (old(rejected) || ((channel.fd in old(interest)) == op.CtlAdd?))
      ensures interest == old(interest) || interest == old(interest) - {channel.fd}
              || interest == old(interest)[channel.fd := (channel.events, channel)]
    {
      var present := channel.fd in interest;
      if present == op.CtlAdd? {
        rejected := true;
      } else if op.CtlDel? {
        interest := interest - {channel.fd};
      } else {
        interest := interest[channel.fd := (channel.events, channel)];
      }
    }

    method UpdateChannel(channel: Channel)
      requires channel in all && Linked() && !rejected
      requires forall c <- all :: c != channel ==> Mirror(View(c))
      requires exists e :: Mirror(View(channel).(events := e))
      modifies this`channels, this`interest, this`rejected, channel`index
      ensures Linked() && View(channel) == Updated(old(View(channel)))
      ensures Valid()
      ensures forall c <- all :: c != channel ==> View(c) == old(View(c))
    {
      ghost var before := View(channel);
      UpdatedMirrors(before);
      hide Mirror;
      if channel.index == New || channel.index == Deleted {
        if channel.index == New {
          channels := channels[channel.fd := channel];
        }
        channel.index := Added;
        EpollCtl(CtlAdd, channel);
      } else if channel.events == NO_EVENTS {
        EpollCtl(CtlDel, channel);
        channel.index := Deleted;
      } else {
        EpollCtl(CtlMod, channel);
      }
    }

    method RemoveChannel(channel: Channel)
      requires Valid() && channel in all
      modifies this`channels, this`interest, this`rejected, channel`index
      ensures Valid() && View(channel) == Removed(old(View(channel)))
      ensures forall c <- all :: c != channel ==> View(c) == old(View(c))
    {
      if channel.index == Added {
        EpollCtl(CtlDel, channel);
      }
      channels := channels - {channel.fd};
      channel.index := New;
    }

    /** c is the live, registered channel of fd, and marked kAdded. */
    ghost predicate Reported(fd: int, c: Channel)
      reads this, c
    {
      c in all && c.fd == fd && c.index == Added && fd in channels && channels[fd] == c
    }

    /** fillActiveChannels: whatever fds the kernel reports, the pointers that come back are live
        registered channels that are marked kAdded. */
    method FillActiveChannels(ready: seq<int>) returns (active: seq<Channel>)
      requires Valid() && forall i | 0 <= i < |ready| :: ready[i] in interest
      ensures |active| == |ready|
      ensures forall i | 0 <= i < |ready| :: Reported(ready[i], active[i])
    {
      active := [];
      for i := 0 to |ready|
        invariant |active| == i
        invariant forall j | 0 <= j < i :: Reported(ready[j], active[j])
      {
        var c := interest[ready[i]].1;
        assert c in all && c.fd == ready[i] && Mirror(View(c));
        active := active + [c];
      }
    }
  }
}
