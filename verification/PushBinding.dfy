/**
 * Which account a device is bound to. A device row is bound, disabled and discarded under a binding
 * version; notification deliveries remember the version they were created for, and are sent only while the
 * device still carries it.
 */
module PushBinding {
  import opened Wrappers

  type Device = nat    // the installation, one per Firebase id
  type Account = nat

  datatype Binding = Binding(account: Account, mfaVersion: nat, version: nat, enabled: bool, expiresAt: int)

  datatype Delivery = Delivery(recipient: Account, device: Device, version: nat)

  datatype State = State(now: int, devices: map<Device, Binding>, deliveries: set<Delivery>)

  const START := State(0, map[], {})

  /** The version stays only for a renewal: same account and second factor, still enabled and unexpired. */
  function BoundAgain(b: Binding, account: Account, mfaVersion: nat, expiresAt: int, now: int): Binding {
    var renewal := b.account == account && b.mfaVersion == mfaVersion && b.enabled && b.expiresAt > now;
    Binding(account, mfaVersion, if renewal then b.version else b.version + 1, true, expiresAt)
  }

  function Bind(s: State, device: Device, account: Account, mfaVersion: nat, expiresAt: int): State {
    s.(devices := s.devices[device :=
      if device in s.devices then BoundAgain(s.devices[device], account, mfaVersion, expiresAt, s.now)
      else Binding(account, mfaVersion, 1, true, expiresAt)])
  }

  /** The owner turns the device off. */
  function Disable(s: State, account: Account, device: Device): State {
    if device in s.devices && s.devices[device].account == account && s.devices[device].enabled
    then s.(devices := s.devices[device := s.devices[device].(enabled := false, version := s.devices[device].version + 1)])
    else s
  }

  /** The push service no longer knows the device: discards the binding that was used, and only that one. */
  function Discard(s: State, device: Device, version: nat): State {
    if device in s.devices && s.devices[device].version == version
    then s.(devices := s.devices[device := s.devices[device].(enabled := false, version := version + 1)])
    else s
  }

  predicate Bound(s: State, device: Device, recipient: Account) {
    device in s.devices && s.devices[device].account == recipient && s.devices[device].enabled
    && s.devices[device].expiresAt > s.now
  }

  function DeliveriesTo(s: State, devices: set<Device>, recipient: Account): set<Delivery> {
    set device | device in devices && Bound(s, device, recipient) :: Delivery(recipient, device, s.devices[device].version)
  }

  /** One delivery per device the recipient has bound now. */
  function NewDeliveries(s: State, recipient: Account): set<Delivery> {
    DeliveriesTo(s, s.devices.Keys, recipient)
  }

  /** The join that finds a delivery's target; the account's own conditions come on top. */
  predicate HasTarget(s: State, d: Delivery) {
    Bound(s, d.device, d.recipient) && s.devices[d.device].version == d.version
  }

  datatype Event =
    | Tick(elapsed: nat)
    | BindDevice(device: Device, account: Account, mfaVersion: nat, expiresAt: int)
    | DisableDevice(account: Account, device: Device)
    | DiscardDevice(device: Device, version: nat)
    | Notify(recipient: Account)

  function Next(s: State, e: Event): State {
    match e
    case Tick(elapsed) => s.(now := s.now + elapsed)
    case BindDevice(device, account, mfaVersion, expiresAt) => Bind(s, device, account, mfaVersion, expiresAt)
    case DisableDevice(account, device) => Disable(s, account, device)
    case DiscardDevice(device, version) => Discard(s, device, version)
    case Notify(recipient) => s.(deliveries := s.deliveries + NewDeliveries(s, recipient))
  }

  function Reached(run: seq<Event>): State {
    if run == [] then START else Next(Reached(run[..|run| - 1]), run[|run| - 1])
  }

  // ---------------------------------------------------------------- what a version means

  /** Rows are never deleted and versions only grow; within one version the owner, its factor and the switch are fixed. */
  predicate Follows(s: State, t: State, device: Device) {
    device in s.devices ==>
      && device in t.devices && s.devices[device].version <= t.devices[device].version
      && (s.devices[device].version == t.devices[device].version ==>
            && s.devices[device].account == t.devices[device].account
            && s.devices[device].mfaVersion == t.devices[device].mfaVersion
            && s.devices[device].enabled == t.devices[device].enabled)
  }

  lemma {:induction false} VersionsOnlyGrow(run: seq<Event>, i: nat, device: Device)
    requires i <= |run|
    ensures Follows(Reached(run[..i]), Reached(run), device)
  {
    if i == |run| {
      assert run[..i] == run;
    } else {
      assert run[..|run| - 1][..i] == run[..i];
      VersionsOnlyGrow(run[..|run| - 1], i, device);
    }
  }

  /** In any run, a device and a binding version determine the account and its second factor. */
  lemma VersionDeterminesTheOwner(run: seq<Event>, i: nat, j: nat, device: Device)
    requires i <= |run| && j <= |run| && device in Reached(run[..i]).devices && device in Reached(run[..j]).devices
    requires Reached(run[..i]).devices[device].version == Reached(run[..j]).devices[device].version
    ensures Reached(run[..i]).devices[device].account == Reached(run[..j]).devices[device].account
    ensures Reached(run[..i]).devices[device].mfaVersion == Reached(run[..j]).devices[device].mfaVersion
  {
    var first, second := if i <= j then i else j, if i <= j then j else i;
    assert run[..second][..first] == run[..first];
    VersionsOnlyGrow(run[..second], first, device);
  }

  /** Back in time: a binding alive now under a version was alive whenever the device carried that version. */
  lemma {:induction false} AliveBefore(run: seq<Event>, k: nat, device: Device)
    requires k <= |run| && device in Reached(run[..k]).devices
    requires device in Reached(run).devices && Reached(run).devices[device].version == Reached(run[..k]).devices[device].version
    requires Reached(run).devices[device].expiresAt > Reached(run).now
    ensures Reached(run[..k]).devices[device].expiresAt > Reached(run[..k]).now
  {
    if k == |run| {
      assert run[..k] == run;
    } else {
      var before := run[..|run| - 1];
      assert before[..k] == run[..k];
      VersionsOnlyGrow(before, k, device);
      assert Reached(run) == Next(Reached(before), run[|run| - 1]);
      assert Follows(Reached(before), Reached(run), device);
      AliveBefore(before, k, device);
    }
  }

  /** The same binding at both times, enabled and unexpired. */
  predicate SameLiveBinding(s: State, t: State, d: Delivery) {
    && HasTarget(t, d) && d.device in s.devices
    && t.devices[d.device].mfaVersion == s.devices[d.device].mfaVersion
  }

  /** A delivery that finds a target reaches the binding it was created for, unbroken all the way, of its recipient. */
  lemma SentToTheBindingItWasCreatedFor(run: seq<Event>, i: nat, k: nat, d: Delivery)
    requires i <= k <= |run| && d in NewDeliveries(Reached(run[..i]), d.recipient) && HasTarget(Reached(run), d)
    ensures SameLiveBinding(Reached(run[..i]), Reached(run[..k]), d)
  {
    assert run[..k][..i] == run[..i] && run[..|run|] == run;
    VersionsOnlyGrow(run[..k], i, d.device);
    VersionsOnlyGrow(run, k, d.device);
    VersionsOnlyGrow(run, i, d.device);
    AliveBefore(run, k, d.device);
  }

  /** Once the device was disabled, discarded or bound to someone else, its old deliveries never find it again. */
  lemma BrokenBindingsStayBroken(run: seq<Event>, i: nat, k: nat, d: Delivery)
    requires i <= k <= |run| && d in NewDeliveries(Reached(run[..i]), d.recipient) && !HasTarget(Reached(run[..k]), d)
    ensures !HasTarget(Reached(run), d)
  {
    assert run[..k][..i] == run[..i];
    VersionsOnlyGrow(run[..k], i, d.device);
    VersionsOnlyGrow(run, k, d.device);
    if HasTarget(Reached(run), d) {
      AliveBefore(run, k, d.device);
      assert false;
    }
  }

  // ---------------------------------------------------------------- exactly when a target is lost

  /** What takes a delivery's target away: the expiry, another binding, the owner, or the push service. */
  predicate Breaks(s: State, e: Event, d: Delivery)
    requires d.device in s.devices
  {
    var b := s.devices[d.device];
    match e
    case Tick(elapsed) => b.expiresAt <= s.now + elapsed
    case BindDevice(device, account, mfaVersion, expiresAt) =>
      device == d.device && (account != b.account || mfaVersion != b.mfaVersion || expiresAt <= s.now)
    case DisableDevice(account, device) => device == d.device && account == d.recipient
    case DiscardDevice(device, version) => device == d.device && version == d.version
    case Notify(_) => false
  }

  lemma TargetsAreLostByBreaking(s: State, e: Event, d: Delivery)
    requires HasTarget(s, d)
    ensures HasTarget(Next(s, e), d) <==> !Breaks(s, e, d)
  {
  }

  predicate BreaksAt(run: seq<Event>, k: nat, d: Delivery)
    requires k < |run|
  {
    d.device in Reached(run[..k]).devices && Breaks(Reached(run[..k]), run[k], d)
  }

  /** In every run a delivery finds its target exactly as long as nothing broke the binding it was made for. */
  lemma {:induction false} TargetsLastUntilBroken(run: seq<Event>, i: nat, d: Delivery)
    requires i <= |run| && d in NewDeliveries(Reached(run[..i]), d.recipient)
    ensures HasTarget(Reached(run), d) <==> forall k: nat | i <= k < |run| :: !BreaksAt(run, k, d)
  {
    if i == |run| {
      assert run[..i] == run;
    } else {
      var front := run[..|run| - 1];
      assert front[..i] == run[..i] && run[..|run|] == run;
      TargetsLastUntilBroken(front, i, d);
      forall k: nat | i <= k < |front|
        ensures BreaksAt(front, k, d) == BreaksAt(run, k, d)
      {
        assert front[..k] == run[..k];
      }
      if HasTarget(Reached(front), d) {
        TargetsAreLostByBreaking(Reached(front), run[|run| - 1], d);
        assert BreaksAt(run, |run| - 1, d) <==> !HasTarget(Reached(run), d);
      } else {
        BrokenBindingsStayBroken(run, i, |run| - 1, d);
      }
    }
  }

  /** A binding takes the device over for its account, and a different one cuts off everything made for the one before. */
  lemma BindingsTakeOver(s: State, device: Device, account: Account, mfaVersion: nat, expiresAt: int)
    ensures var t := Bind(s, device, account, mfaVersion, expiresAt);
            && device in t.devices && t.devices[device] == Binding(account, mfaVersion, t.devices[device].version, true, expiresAt)
            && (expiresAt > s.now ==> Delivery(account, device, t.devices[device].version) in NewDeliveries(t, account))
            && (forall other | other in s.devices && other != device :: other in t.devices && t.devices[other] == s.devices[other])
            && (device in s.devices && (s.devices[device].account != account || s.devices[device].mfaVersion != mfaVersion) ==>
                  forall d: Delivery | d.device == device && d.version <= s.devices[device].version :: !HasTarget(t, d))
  {
  }

  /** Only the owner turns a device off, and only for itself. */
  lemma OnlyOwnersDisable(s: State, account: Account, device: Device)
    ensures var t := Disable(s, account, device);
            && (t != s <==> device in s.devices && s.devices[device].account == account && s.devices[device].enabled)
            && (t != s ==> forall recipient :: !Bound(t, device, recipient))
            && (forall other | other in s.devices && other != device :: other in t.devices && t.devices[other] == s.devices[other])
  {
  }

  // ---------------------------------------------------------------- the repository

  class Installations {
    var now: int
    var devices: map<Device, Binding>
    var deliveries: set<Delivery>

    function Rows(): State
      reads this
    {
      State(now, devices, deliveries)
    }

    constructor ()
      ensures Rows() == START
    {
      now, devices, deliveries := 0, map[], {};
    }

    method BindPushInstallation(device: Device, account: Account, mfaVersion: nat, expiresAt: int) returns (version: nat)
      modifies this`devices
      ensures Rows() == Bind(old(Rows()), device, account, mfaVersion, expiresAt) && version == devices[device].version
    {
      version := 1;
      if device in devices {
        var row := devices[device];
        version := row.version;
        if !(row.account == account && row.mfaVersion == mfaVersion && row.enabled && row.expiresAt > now) {
          version := version + 1;
        }
      }
      devices := devices[device := Binding(account, mfaVersion, version, true, expiresAt)];
    }

    method DisablePushInstallation(account: Account, device: Device)
      modifies this`devices
      ensures Rows() == Disable(old(Rows()), account, device)
    {
      if device in devices && devices[device].account == account && devices[device].enabled {
        devices := devices[device := devices[device].(enabled := false, version := devices[device].version + 1)];
      }
    }

    method DiscardPushRegistration(device: Device, version: nat)
      modifies this`devices
      ensures Rows() == Discard(old(Rows()), device, version)
    {
      if device in devices && devices[device].version == version {
        devices := devices[device := devices[device].(enabled := false, version := version + 1)];
      }
    }

    method InsertNotificationDeliveries(recipient: Account)
      modifies this`deliveries
      ensures Rows() == Next(old(Rows()), Notify(recipient))
    {
      var todo := devices.Keys;
      var rows: set<Delivery> := {};
      ghost var seen: set<Device> := {};
      while todo != {}
        invariant seen + todo == devices.Keys && deliveries == old(deliveries)
        invariant rows == DeliveriesTo(Rows(), seen, recipient)
        decreases |todo|
      {
        var device :| device in todo;
        OneMoreDevice(Rows(), seen, device, recipient);
        if Bound(Rows(), device, recipient) {
          rows := rows + {Delivery(recipient, device, devices[device].version)};
        }
        todo, seen := todo - {device}, seen + {device};
      }
      assert seen == devices.Keys;
      assert rows == NewDeliveries(Rows(), recipient);
      deliveries := deliveries + rows;
    }
  }

  lemma OneMoreDevice(s: State, seen: set<Device>, device: Device, recipient: Account)
    ensures DeliveriesTo(s, seen + {device}, recipient) ==
            DeliveriesTo(s, seen, recipient)
            + if Bound(s, device, recipient) then {Delivery(recipient, device, s.devices[device].version)} else {}
  {
  }
}
