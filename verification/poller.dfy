/** The poller: it keeps the kernel's interest list in step with what the channels
    want, one epoll_ctl at a time. */
module Pollers {
  import opened Channels
  import opened PollerFlow

  datatype Operation = CtlAdd | CtlMod | CtlDel

  /** What epoll reports for one descriptor. */
  datatype Report = Report(fd: nat, revents: Revents)

  class EPollPoller {
    var channels: map<nat, Channel>
    // The kernel's side: its interest list, and how often it has refused a call.
    var kernel: map<nat, Registration<Channel>>
    var failures: nat
    var capacity: nat   // room for the reports of one poll

    // The channels there are.
    ghost var known: set<Channel>

    ghost function View(): World<Channel>
      reads this, known
    {
      World(map c | c in known :: Chan(c.fd, c.events, c.state), channels, kernel, failures)
    }

    constructor ()
      ensures View() == Empty() && known == {} && capacity > 0
    {
      channels, kernel, failures, capacity := map[], map[], 0, 16;
      known := {};
    }

    /** epoll_ctl: adding what is there, or changing or deleting what is not, fails. */
    method Update(operation: Operation, channel: Channel)
      requires channel in known
      modifies this`kernel, this`failures
      ensures View() == match operation
                        case CtlAdd => Add(old(View()), channel)
                        case CtlMod => Mod(old(View()), channel)
                        case CtlDel => Del(old(View()), channel)
    {
      var fd := channel.fd;
      if (operation == CtlAdd) == (fd in kernel) {
        failures := failures + 1;
      } else {
        match operation
        case CtlDel => kernel := kernel - {fd};
        case _ => kernel := kernel[fd := Registration(channel.events, channel)];
      }
    }

    method UpdateChannel(channel: Channel)
      requires channel in known
      modifies this`channels, this`kernel, this`failures, channel`state
      ensures View() == PollerFlow.UpdateChannel(old(View()), channel)
    {
      if channel.state == New || channel.state == Deleted {
        if channel.state == New {
          channels := channels[channel.fd := channel];
        }
        channel.state := Added;
        Update(CtlAdd, channel);
      } else {
        if channel.IsNoneEvent() {
          Update(CtlDel, channel);
          channel.state := Deleted;
        } else {
          Update(CtlMod, channel);
        }
      }
    }

    /** The channel's state is left as it is. */
    method RemoveChannel(channel: Channel)
      requires channel in known
      modifies this`channels, this`kernel, this`failures
      ensures View() == Step(old(View()), Remove(channel))
    {
      channels := channels - {channel.fd};
      if channel.state == Added {
        Update(CtlDel, channel);
      }
    }

    predicate HasChannel(channel: Channel)
      reads this
    {
      channel.fd in channels && channels[channel.fd] == channel
    }

    /** The channels of the reported descriptors, each told what happened.  While
        poller and kernel agree, each is one the poller has. */
    method Poll(reports: seq<Report>) returns (active: seq<Channel>)
      requires Agree(View()) && |reports| <= capacity
      requires forall i :: 0 <= i < |reports| ==> reports[i].fd in kernel
      requires forall i, j :: 0 <= i < j < |reports| ==> reports[i].fd != reports[j].fd
      modifies this`capacity, known
      ensures View() == old(View()) && known == old(known) && |active| == |reports|
      ensures forall i :: 0 <= i < |reports| ==>
                HasChannel(active[i]) && active[i].fd == reports[i].fd && active[i].state == Added &&
                active[i].revents == reports[i].revents
      ensures capacity > |reports| || reports == []
    {
      active := FillActiveChannels(reports);
      if |reports| == capacity {
        capacity := capacity * 2;
      }
    }

    method FillActiveChannels(reports: seq<Report>) returns (active: seq<Channel>)
      requires Agree(View())
      requires forall i :: 0 <= i < |reports| ==> reports[i].fd in kernel
      requires forall i, j :: 0 <= i < j < |reports| ==> reports[i].fd != reports[j].fd
      modifies known
      ensures View() == old(View()) && |active| == |reports|
      ensures forall i :: 0 <= i < |reports| ==>
                HasChannel(active[i]) && active[i].fd == reports[i].fd && active[i].state == Added &&
                active[i].revents == reports[i].revents
    {
      active := [];
      var i := 0;
      while i < |reports|
        invariant 0 <= i == |active| <= |reports|
        invariant forall c :: c in known ==> c.events == old(c.events) && c.state == old(c.state)
        invariant forall k :: 0 <= k < i ==> Reported(active[k], reports[k])
        modifies known
      {
        var channel := kernel[reports[i].fd].channel;
        assert reports[i].fd in View().kernel && channel == channels[reports[i].fd];
        channel.revents := reports[i].revents;
        active := active + [channel];
        i := i + 1;
      }
    }

    predicate Reported(c: Channel, r: Report)
      reads this, c
    {
      HasChannel(c) && c.fd == r.fd && c.state == Added && c.revents == r.revents
    }

    // Changing a channel's interest and telling the poller is one operation.

    method EnableReading(channel: Channel)
      requires channel in known
      modifies this`channels, this`kernel, this`failures, channel
      ensures View() == Step(old(View()), SetEvents(channel, old(channel.events).(reading := true)))
    {
      channel.EnableReading();
      assert View() == WithEvents(old(View()), channel, channel.events);
      UpdateChannel(channel);
    }

    method EnableWriting(channel: Channel)
      requires channel in known
      modifies this`channels, this`kernel, this`failures, channel
      ensures View() == Step(old(View()), SetEvents(channel, old(channel.events).(writing := true)))
    {
      channel.EnableWriting();
      assert View() == WithEvents(old(View()), channel, channel.events);
      UpdateChannel(channel);
    }

    method DisableWriting(channel: Channel)
      requires channel in known
      modifies this`channels, this`kernel, this`failures, channel
      ensures View() == Step(old(View()), SetEvents(channel, old(channel.events).(writing := false)))
    {
      channel.DisableWriting();
      assert View() == WithEvents(old(View()), channel, channel.events);
      UpdateChannel(channel);
    }

    method DisableAll(channel: Channel)
      requires channel in known
      modifies this`channels, this`kernel, this`failures, channel
      ensures View() == Step(old(View()), SetEvents(channel, NO_EVENTS))
    {
      channel.DisableAll();
      assert View() == WithEvents(old(View()), channel, channel.events);
      UpdateChannel(channel);
    }

    method Open(fd: nat) returns (channel: Channel)
      modifies this`known
      ensures fresh(channel) && known == old(known) + {channel}
      ensures View() == Step(old(View()), PollerFlow.Open(channel, fd))
    {
      channel := new Channel(fd);
      known := known + {channel};
    }
  }
}
