/** A channel: a descriptor, the events it is interested in, and what the poller
    knows about it. */
module Channels {
  datatype ChannelState = New | Added | Deleted

  /** The events a descriptor is watched for. */
  datatype Mask = Mask(reading: bool, writing: bool)

  const NO_EVENTS := Mask(false, false)

  /** What the poller reports of a descriptor.  Hang-ups and errors are reported
      whatever the descriptor is watched for. */
  datatype Revents = Revents(hup: bool, error: bool, readable: bool, writable: bool)

  const NO_REVENTS := Revents(false, false, false, false)

  /** What a channel tells its loop, which passes it on to the poller. */
  datatype Notice = Update(events: Mask) | Removal

  class Channel {
    const fd: nat
    var events: Mask
    var revents: Revents
    var state: ChannelState
    var told: seq<Notice>

    constructor (fd: nat)
      ensures this.fd == fd && events == NO_EVENTS && state == New && told == []
    {
      this.fd := fd;
      events, revents, state, told := NO_EVENTS, NO_REVENTS, New, [];
    }

    predicate IsNoneEvent()
      reads this
    {
      events == NO_EVENTS
    }

    predicate IsWriting()
      reads this
    {
      events.writing
    }

    method EnableReading()
      modifies this`events, this`told
      ensures events == old(events).(reading := true) && told == old(told) + [Update(events)]
    {
      events := events.(reading := true);
      told := told + [Update(events)];
    }

    method EnableWriting()
      modifies this`events, this`told
      ensures events == old(events).(writing := true) && told == old(told) + [Update(events)]
    {
      events := events.(writing := true);
      told := told + [Update(events)];
    }

    method DisableWriting()
      modifies this`events, this`told
      ensures events == old(events).(writing := false) && told == old(told) + [Update(events)]
    {
      events := events.(writing := false);
      told := told + [Update(events)];
    }

    method DisableAll()
      modifies this`events, this`told
      ensures events == NO_EVENTS && told == old(told) + [Update(events)]
    {
      events := NO_EVENTS;
      told := told + [Update(events)];
    }

    method Remove()
      modifies this`told
      ensures told == old(told) + [Removal]
    {
      told := told + [Removal];
    }
  }
}
