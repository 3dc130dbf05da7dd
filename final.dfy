/** The `Television` class of Final.py, whose methods update its four
    fields in place under guards, and the one piece of state logic in the
    `TelevisionRemote` window: the number pad's direct channel write, plus
    the dispatch of each remote button to the television. Every method is
    proved against the matching function of TvSpec. */
module Final {
  import TvSpec

  class Television {
    var power: bool
    var muted: bool
    var volume: int
    var channel: int

    /** The fields as a value. */
    function State(): TvSpec.TvState
      reads this
    {
      TvSpec.TvState(power, muted, volume, channel)
    }

    /** Volume within 0..5 and channel within 0..3. */
    predicate Valid()
      reads this
    {
      TvSpec.InRange(State())
    }

    constructor ()
      ensures State() == TvSpec.Factory() && Valid()
    {
      power := false;
      muted := false;
      volume := TvSpec.MinVolume;
      channel := TvSpec.MinChannel;
    }

    /** Back to the factory state, whatever the state was. */
    method Initialize()
      modifies this
      ensures State() == TvSpec.Factory() && Valid()
    {
      power := false;
      muted := false;
      volume := TvSpec.MinVolume;
      channel := TvSpec.MinChannel;
    }

    method TogglePower()
      modifies this
      ensures State() == TvSpec.TogglePower(old(State()))
      ensures old(Valid()) ==> Valid()
    {
      power := !power;
    }

    method ToggleMute()
      modifies this
      ensures State() == TvSpec.ToggleMute(old(State()))
      ensures old(Valid()) ==> Valid()
    {
      if power {
        muted := !muted;
      }
    }

    method ChannelUp()
      modifies this
      ensures State() == TvSpec.ChannelUp(old(State()))
      ensures old(Valid()) ==> Valid()
    {
      if power {
        channel := (channel + 1) % (TvSpec.MaxChannel + 1);
      }
    }

    method ChannelDown()
      modifies this
      ensures State() == TvSpec.ChannelDown(old(State()))
      ensures old(Valid()) ==> Valid()
    {
      if power {
        channel := (channel - 1) % (TvSpec.MaxChannel + 1);
      }
    }

    method VolumeUp()
      modifies this
      ensures State() == TvSpec.VolumeUp(old(State()))
      ensures old(Valid()) ==> Valid()
    {
      if power && !muted {
        volume := TvSpec.Min(volume + 1, TvSpec.MaxVolume);
      }
    }

    method VolumeDown()
      modifies this
      ensures State() == TvSpec.VolumeDown(old(State()))
      ensures old(Valid()) ==> Valid()
    {
      if power && !muted {
        volume := TvSpec.Max(volume - 1, TvSpec.MinVolume);
      }
    }

    /** Reports the power flag. While it is off, the volume, channel and mute
        buttons are inert, which is why the remote disables them; the pad
        stays enabled and `select_channel`'s guard keeps it inert. */
    function IsPowerOn(): (on: bool)
      reads this
      ensures on == State().power
      ensures !on ==> (TvSpec.ToggleMute(State()) == State()
        && TvSpec.ChannelUp(State()) == State() && TvSpec.ChannelDown(State()) == State()
        && TvSpec.VolumeUp(State()) == State() && TvSpec.VolumeDown(State()) == State()
        && (forall c :: TvSpec.SelectChannel(State(), c) == State()))
    {
      power
    }

    /** Reports the mute flag. While it is set, the volume buttons are inert,
        which is why the remote disables them. */
    function IsMuted(): (m: bool)
      reads this
      ensures m == State().muted
      ensures m ==> TvSpec.VolumeUp(State()) == State() && TvSpec.VolumeDown(State()) == State()
    {
      muted
    }
  }

  class TelevisionRemote {
    const tv: Television

    constructor ()
      ensures fresh(tv) && tv.State() == TvSpec.Factory()
    {
      tv := new Television();
    }

    /** Writes the television's channel directly while it is on; the value
        is not checked here, only the pad's buttons keep it within 0..3. */
    method SelectChannel(channel: int)
      modifies tv
      ensures tv.State() == TvSpec.SelectChannel(old(tv.State()), channel)
      ensures old(tv.Valid()) && TvSpec.ChannelInRange(channel) ==> tv.Valid()
    {
      if tv.IsPowerOn() {
        tv.channel := channel;
      }
    }

    /** One button of the remote, passed on to the television. */
    method Press(b: TvSpec.Button)
      modifies tv
      ensures tv.State() == TvSpec.Press(old(tv.State()), b)
      ensures old(tv.Valid()) && TvSpec.OnPad(b) ==> tv.Valid()
    {
      match b
      case Power => tv.TogglePower();
      case Mute => tv.ToggleMute();
      case VolUp => tv.VolumeUp();
      case VolDown => tv.VolumeDown();
      case ChUp => tv.ChannelUp();
      case ChDown => tv.ChannelDown();
      case Digit(n) => SelectChannel(n);
    }
  }
}
