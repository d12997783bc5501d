/** Properties of one press of the media picker: what the trace of a press
    contains for each provider reply, that the callback only ever receives an
    asset within both limits, and that the loading flag brackets the press. */
module MediaPickerProofs {
  import opened Optional
  import opened MediaPicker
  import Decimal

  // ---------------------------------------------------------------------
  // Reference definitions
  // ---------------------------------------------------------------------

  /** An asset the caller may receive, stated without JavaScript truthiness:
      a video lasts at most the limit, and when a non-zero size limit is set
      a file is at most that many megabytes. Zero durations and sizes pass on
      their own, so the truthiness guards of the source make no difference
      for them; for the size limit they do, since 0 disables the check. */
  ghost predicate WithinLimits(c: Config, a: ProviderAsset) {
    && (a.kind == "video" && a.duration.Some? ==> a.duration.value <= c.maxDuration * MillisPerSecond)
    && (c.maxFileSize.Some? && c.maxFileSize.value != 0 && a.fileSize.Some? ==>
          a.fileSize.value <= c.maxFileSize.value * BytesPerMegabyte)
  }

  /** The asset a launch reply offers, if any. */
  ghost predicate Offers(launch: LaunchReply, a: ProviderAsset) {
    && launch.LaunchResult?
    && !launch.canceled
    && launch.assets.Some?
    && |launch.assets.value| > 0
    && launch.assets.value[0] == a
  }

  ghost predicate OffersNothing(launch: LaunchReply) {
    launch.LaunchResult? && (launch.canceled || launch.assets.None? || |launch.assets.value| == 0)
  }

  /** The one alert each outcome raises. */
  function AlertFor(o: Outcome): seq<Alert> {
    match o
    case Denied => [PermissionAlert]
    case TooLong(d) => [TooLongAlert(d)]
    case TooLarge(m) => [TooLargeAlert(m)]
    case Faulted => [FaultAlert]
    case _ => []
  }

  // ---------------------------------------------------------------------
  // Traces
  // ---------------------------------------------------------------------

  lemma {:induction false} AlertsAppend(a: seq<Effect>, b: seq<Effect>)
    ensures Alerts(a + b) == Alerts(a) + Alerts(b)
    decreases |a|
  {
    if |a| > 0 {
      assert (a + b)[0] == a[0];
      assert (a + b)[1..] == a[1..] + b;
      AlertsAppend(a[1..], b);
    } else {
      assert a + b == b;
    }
  }

  lemma {:induction false} DeliveriesAppend(a: seq<Effect>, b: seq<Effect>)
    ensures Deliveries(a + b) == Deliveries(a) + Deliveries(b)
    decreases |a|
  {
    if |a| > 0 {
      assert (a + b)[0] == a[0];
      assert (a + b)[1..] == a[1..] + b;
      DeliveriesAppend(a[1..], b);
    } else {
      assert a + b == b;
    }
  }

  lemma {:induction false} ApplyEffectsAppend(s: WidgetState, a: seq<Effect>, b: seq<Effect>)
    ensures ApplyEffects(s, a + b) == ApplyEffects(ApplyEffects(s, a), b)
    decreases |a|
  {
    if |a| > 0 {
      assert (a + b)[0] == a[0];
      assert (a + b)[1..] == a[1..] + b;
      ApplyEffectsAppend(ApplyEffect(s, a[0]), a[1..], b);
    } else {
      assert a + b == b;
    }
  }

  /** A trace without alert steps raises no alert. */
  lemma {:induction false} NoAlerts(effects: seq<Effect>)
    requires forall i | 0 <= i < |effects| :: !effects[i].ShowAlert?
    ensures Alerts(effects) == []
    decreases |effects|
  {
    if |effects| > 0 {
      NoAlerts(effects[1..]);
    }
  }

  /** A trace without callback steps delivers nothing. */
  lemma {:induction false} NoDeliveries(effects: seq<Effect>)
    requires forall i | 0 <= i < |effects| :: !effects[i].Deliver?
    ensures Deliveries(effects) == []
    decreases |effects|
  {
    if |effects| > 0 {
      NoDeliveries(effects[1..]);
    }
  }

  lemma AlertsSingle(e: Effect)
    ensures Alerts([e]) == (if e.ShowAlert? then [e.alert] else [])
  {
    assert [e][1..] == [];
  }

  lemma DeliveriesSingle(e: Effect)
    ensures Deliveries([e]) == (if e.Deliver? then [e.asset] else [])
  {
    assert [e][1..] == [];
  }

  /** Steps that are not state updates leave the state alone. */
  lemma {:induction false} ApplyInert(s: WidgetState, effects: seq<Effect>)
    requires forall i | 0 <= i < |effects| :: !effects[i].SetLoading? && !effects[i].SetPermissionDenied?
    ensures ApplyEffects(s, effects) == s
    decreases |effects|
  {
    if |effects| > 0 {
      ApplyInert(s, effects[1..]);
    }
  }

  /** Steps that do not touch the loading flag leave it alone. */
  lemma {:induction false} LoadingUntouched(s: WidgetState, effects: seq<Effect>)
    requires forall i | 0 <= i < |effects| :: !effects[i].SetLoading?
    ensures ApplyEffects(s, effects).isLoading == s.isLoading
    decreases |effects|
  {
    if |effects| > 0 {
      LoadingUntouched(ApplyEffect(s, effects[0]), effects[1..]);
    }
  }

  /** The shape of a press trace: loading on, the attempted steps, the fault
      alert if any, loading off. */
  lemma PressShape(c: Config, prior: WidgetState, permission: PermissionReply, launch: LaunchReply)
    ensures var p := PickMedia(c, prior, permission, launch);
            && p.outcome == Decide(c, permission, launch)
            && p.effects == [SetLoading(true)] + Attempted(c, permission, p.outcome)
                            + (if p.outcome.Faulted? then [ShowAlert(FaultAlert)] else [])
                            + [SetLoading(false)]
  {
  }

  /** An outcome the permission reply allows: a fault for a faulted request,
      a denial exactly for a refusal. */
  ghost predicate Consistent(permission: PermissionReply, o: Outcome) {
    && (permission.PermissionFault? ==> o.Faulted?)
    && (permission.PermissionResponse? ==> (o.Denied? <==> !permission.granted))
  }

  lemma DecideConsistent(c: Config, permission: PermissionReply, launch: LaunchReply)
    ensures Consistent(permission, Decide(c, permission, launch))
  {
  }

  /** The steps of the `try` block contain no loading update, and at most one
      permission update, right after the request. */
  lemma AttemptSteps(c: Config, permission: PermissionReply, o: Outcome)
    ensures var attempted := Attempted(c, permission, o);
            && |attempted| >= 1
            && attempted[0] == RequestPermission
            && (forall i | 0 <= i < |attempted| :: !attempted[i].SetLoading?)
            && (forall i | 2 <= i < |attempted| :: !attempted[i].SetPermissionDenied?)
            && (permission.PermissionFault? <==> |attempted| == 1)
            && (permission.PermissionResponse? ==> attempted[1] == SetPermissionDenied(!permission.granted))
  {
  }

  // ---------------------------------------------------------------------
  // One press
  // ---------------------------------------------------------------------

  lemma ReportAlerts(o: Outcome)
    ensures Alerts(Report(o)) == (if o.TooLong? || o.TooLarge? then AlertFor(o) else [])
  {
    match o
    case TooLong(d) => AlertsSingle(ShowAlert(TooLongAlert(d)));
    case TooLarge(m) => AlertsSingle(ShowAlert(TooLargeAlert(m)));
    case Selected(m) => AlertsSingle(Deliver(m));
    case _ =>
  }

  lemma ReportDeliveries(o: Outcome)
    ensures Deliveries(Report(o)) == (if o.Selected? then [o.asset] else [])
  {
    match o
    case TooLong(d) => DeliveriesSingle(ShowAlert(TooLongAlert(d)));
    case TooLarge(m) => DeliveriesSingle(ShowAlert(TooLargeAlert(m)));
    case Selected(m) => DeliveriesSingle(Deliver(m));
    case _ =>
  }

  /** The alerts of the `try` block: the one alert of its outcome, except
      that a fault raises its alert in the `catch` block. */
  lemma AttemptAlerts(c: Config, permission: PermissionReply, o: Outcome)
    requires Consistent(permission, o)
    ensures Alerts(Attempted(c, permission, o)) == (if o.Faulted? then [] else AlertFor(o))
  {
    var attempted := Attempted(c, permission, o);
    match permission
    case PermissionFault =>
      NoAlerts(attempted);
    case PermissionResponse(granted) =>
      if !granted {
        var head := [RequestPermission, SetPermissionDenied(true)];
        assert attempted == head + [ShowAlert(PermissionAlert)];
        NoAlerts(head);
        AlertsAppend(head, [ShowAlert(PermissionAlert)]);
        AlertsSingle(ShowAlert(PermissionAlert));
      } else {
        var launched := [RequestPermission, SetPermissionDenied(false), LaunchPicker(LaunchOptionsFor(c))];
        NoAlerts(launched);
        AlertsAppend(launched, Report(o));
        ReportAlerts(o);
      }
  }

  /** The callback invocations of the `try` block: one exactly on a
      selection. */
  lemma AttemptDeliveries(c: Config, permission: PermissionReply, o: Outcome)
    requires Consistent(permission, o)
    ensures Deliveries(Attempted(c, permission, o)) == (if o.Selected? then [o.asset] else [])
  {
    var attempted := Attempted(c, permission, o);
    match permission
    case PermissionFault =>
      NoDeliveries(attempted);
    case PermissionResponse(granted) =>
      if !granted {
        NoDeliveries(attempted);
      } else {
        var launched := [RequestPermission, SetPermissionDenied(false), LaunchPicker(LaunchOptionsFor(c))];
        NoDeliveries(launched);
        DeliveriesAppend(launched, Report(o));
        ReportDeliveries(o);
      }
  }

  /** The loading updates around the `try` block raise nothing. */
  lemma AlertsBracket(attempted: seq<Effect>, caught: seq<Effect>)
    ensures Alerts([SetLoading(true)] + attempted + caught + [SetLoading(false)])
            == Alerts(attempted) + Alerts(caught)
  {
    var start, finish := [SetLoading(true)], [SetLoading(false)];
    var entered := start + attempted;
    var handled := entered + caught;
    AlertsSingle(SetLoading(true));
    AlertsSingle(SetLoading(false));
    AlertsAppend(start, attempted);
    AlertsAppend(entered, caught);
    AlertsAppend(handled, finish);
  }

  /** The loading updates around the `try` block call nothing back. */
  lemma DeliveriesBracket(attempted: seq<Effect>, caught: seq<Effect>)
    ensures Deliveries([SetLoading(true)] + attempted + caught + [SetLoading(false)])
            == Deliveries(attempted) + Deliveries(caught)
  {
    var start, finish := [SetLoading(true)], [SetLoading(false)];
    var entered := start + attempted;
    var handled := entered + caught;
    DeliveriesSingle(SetLoading(true));
    DeliveriesSingle(SetLoading(false));
    DeliveriesAppend(start, attempted);
    DeliveriesAppend(entered, caught);
    DeliveriesAppend(handled, finish);
  }

  /** Every exit path raises exactly one alert, except a cancel and a
      selection, which raise none. */
  lemma PressAlerts(c: Config, prior: WidgetState, permission: PermissionReply, launch: LaunchReply)
    ensures var p := PickMedia(c, prior, permission, launch);
            && Alerts(p.effects) == AlertFor(p.outcome)
            && |Alerts(p.effects)| == (if p.outcome.Canceled? || p.outcome.Selected? then 0 else 1)
  {
    var o := Decide(c, permission, launch);
    var caught := if o.Faulted? then [ShowAlert(FaultAlert)] else [];
    PressShape(c, prior, permission, launch);
    DecideConsistent(c, permission, launch);
    AttemptAlerts(c, permission, o);
    AlertsBracket(Attempted(c, permission, o), caught);
    AlertsSingle(ShowAlert(FaultAlert));
  }

  /** The callback fires at most once per press, exactly when the outcome is
      a selection, and with the selected asset. */
  lemma PressDeliveries(c: Config, prior: WidgetState, permission: PermissionReply, launch: LaunchReply)
    ensures var p := PickMedia(c, prior, permission, launch);
            && Deliveries(p.effects) == (if p.outcome.Selected? then [p.outcome.asset] else [])
            && |Deliveries(p.effects)| <= 1
  {
    var o := Decide(c, permission, launch);
    var caught := if o.Faulted? then [ShowAlert(FaultAlert)] else [];
    PressShape(c, prior, permission, launch);
    DecideConsistent(c, permission, launch);
    AttemptDeliveries(c, permission, o);
    DeliveriesBracket(Attempted(c, permission, o), caught);
    NoDeliveries(caught);
  }

  /** Replaying the trace of a press from the prior state gives the state
      the press reports: loading off, and the permission flag set by the
      verdict, or kept when the permission request faulted. */
  lemma StateFollowsTrace(c: Config, prior: WidgetState, permission: PermissionReply, launch: LaunchReply)
    ensures var p := PickMedia(c, prior, permission, launch);
            && ApplyEffects(prior, p.effects) == p.state
            && !p.state.isLoading
            && (permission.PermissionResponse? ==> p.state.permissionDenied == !permission.granted)
            && (permission.PermissionFault? ==> p.state.permissionDenied == prior.permissionDenied)
  {
    var o := Decide(c, permission, launch);
    var caught := if o.Faulted? then [ShowAlert(FaultAlert)] else [];
    PressShape(c, prior, permission, launch);
    AttemptSteps(c, permission, o);
    ApplyBracket(prior, Attempted(c, permission, o), caught);
    ApplyAttempted(prior.(isLoading := true), c, permission, o);
  }

  /** Replaying the loading updates around the `try` block: the state the
      block leaves, with loading off. */
  lemma ApplyBracket(s: WidgetState, attempted: seq<Effect>, caught: seq<Effect>)
    requires forall i | 0 <= i < |caught| :: !caught[i].SetLoading? && !caught[i].SetPermissionDenied?
    ensures ApplyEffects(s, [SetLoading(true)] + attempted + caught + [SetLoading(false)])
            == ApplyEffects(s.(isLoading := true), attempted).(isLoading := false)
  {
    var s1 := s.(isLoading := true);
    var s2 := ApplyEffects(s1, attempted);
    ApplySingle(s, SetLoading(true));
    ApplyEffectsAppend(s, [SetLoading(true)], attempted);
    ApplyEffectsAppend(s, [SetLoading(true)] + attempted, caught);
    ApplyInert(s2, caught);
    ApplyEffectsAppend(s, [SetLoading(true)] + attempted + caught, [SetLoading(false)]);
    ApplySingle(s2, SetLoading(false));
  }

  /** Replaying the `try` block: the permission flag becomes the verdict, or
      stays when the request faulted; the loading flag is untouched. */
  lemma ApplyAttempted(s: WidgetState, c: Config, permission: PermissionReply, o: Outcome)
    ensures var s2 := ApplyEffects(s, Attempted(c, permission, o));
            && s2.isLoading == s.isLoading
            && (permission.PermissionResponse? ==> s2.permissionDenied == !permission.granted)
            && (permission.PermissionFault? ==> s2.permissionDenied == s.permissionDenied)
  {
    var attempted := Attempted(c, permission, o);
    AttemptSteps(c, permission, o);
    if permission.PermissionFault? {
      ApplyInert(s, attempted);
    } else {
      var flag := SetPermissionDenied(!permission.granted);
      var head := attempted[..2];
      assert head == [RequestPermission] + [flag];
      ApplyEffectsAppend(s, [RequestPermission], [flag]);
      ApplySingle(s, RequestPermission);
      ApplySingle(s, flag);
      assert attempted == head + attempted[2..];
      ApplyEffectsAppend(s, head, attempted[2..]);
      ApplyInert(ApplyEffects(s, head), attempted[2..]);
    }
  }

  lemma ApplySingle(s: WidgetState, e: Effect)
    ensures ApplyEffects(s, [e]) == ApplyEffect(s, e)
  {
    assert [e][1..] == [];
  }

  /** The loading flag is on from the first step of a press to its last:
      the trace starts by setting it, ends by clearing it, and every state
      in between has it set. */
  lemma LoadingThroughout(c: Config, prior: WidgetState, permission: PermissionReply, launch: LaunchReply)
    ensures var p := PickMedia(c, prior, permission, launch);
            && |p.effects| >= 3
            && p.effects[0] == SetLoading(true)
            && p.effects[|p.effects| - 1] == SetLoading(false)
            && (forall i | 0 < i < |p.effects| - 1 :: !p.effects[i].SetLoading?)
            && (forall k | 1 <= k < |p.effects| :: ApplyEffects(prior, p.effects[..k]).isLoading)
  {
    var p := PickMedia(c, prior, permission, launch);
    var attempted := Attempted(c, permission, p.outcome);
    var caught := if p.outcome.Faulted? then [ShowAlert(FaultAlert)] else [];
    PressShape(c, prior, permission, launch);
    AttemptSteps(c, permission, p.outcome);
    assert p.effects == [SetLoading(true)] + (attempted + caught) + [SetLoading(false)];
    LoadingOnPrefixes(prior, attempted + caught, SetLoading(false));
  }

  /** Replaying any proper prefix of a trace that starts by setting the
      loading flag and does not touch it again before its last step leaves
      the flag set. */
  lemma LoadingOnPrefixes(s: WidgetState, middle: seq<Effect>, last: Effect)
    requires forall i | 0 <= i < |middle| :: !middle[i].SetLoading?
    ensures var effects := [SetLoading(true)] + middle + [last];
            && (forall i | 0 < i < |effects| - 1 :: !effects[i].SetLoading?)
            && (forall k | 1 <= k < |effects| :: ApplyEffects(s, effects[..k]).isLoading)
  {
    var effects := [SetLoading(true)] + middle + [last];
    forall i | 0 < i < |effects| - 1
      ensures !effects[i].SetLoading?
    {
      assert effects[i] == middle[i - 1];
    }
    forall k | 1 <= k < |effects|
      ensures ApplyEffects(s, effects[..k]).isLoading
    {
      var rest := middle[..k - 1];
      assert effects[..k] == [SetLoading(true)] + rest;
      ApplyEffectsAppend(s, [SetLoading(true)], rest);
      ApplySingle(s, SetLoading(true));
      LoadingUntouched(s.(isLoading := true), rest);
    }
  }

  /** A refused permission marks the widget denied, raises the permission
      alert once, and neither launches the gallery nor calls back. */
  lemma DeniedPress(c: Config, prior: WidgetState, launch: LaunchReply)
    ensures var p := PickMedia(c, prior, PermissionResponse(false), launch);
            && p.outcome == Denied
            && p.state.permissionDenied
            && !p.state.isLoading
            && Alerts(p.effects) == [PermissionAlert]
            && Deliveries(p.effects) == []
            && (forall i | 0 <= i < |p.effects| :: !p.effects[i].LaunchPicker?)
  {
    PressAlerts(c, prior, PermissionResponse(false), launch);
    PressDeliveries(c, prior, PermissionResponse(false), launch);
    PressShape(c, prior, PermissionResponse(false), launch);
  }

  /** The gallery is launched exactly when permission is granted, once, as
      the fourth step, right after the denied flag is cleared; its options
      carry the configured filter and duration. */
  lemma LaunchIffGranted(c: Config, prior: WidgetState, permission: PermissionReply, launch: LaunchReply)
    ensures var p := PickMedia(c, prior, permission, launch);
            && (forall i | 0 <= i < |p.effects| ::
                  p.effects[i].LaunchPicker? <==> permission == PermissionResponse(true) && i == 3)
            && (permission == PermissionResponse(true) ==>
                  && p.effects[..4] == [SetLoading(true), RequestPermission, SetPermissionDenied(false),
                                        LaunchPicker(LaunchOptionsFor(c))]
                  && !p.state.permissionDenied)
  {
    PressShape(c, prior, permission, launch);
  }

  /** The launch options: the configured filter, no editing, best quality,
      and the configured duration limit in seconds. */
  lemma LaunchOptionsMatchConfig(c: Config)
    ensures var o := LaunchOptionsFor(c);
            && (o.mediaTypes == Videos <==> c.mediaType == "video")
            && (o.mediaTypes == Images <==> c.mediaType == "image")
            && (o.mediaTypes == All <==> c.mediaType != "video" && c.mediaType != "image")
            && !o.allowsEditing
            && o.quality == 1
            && o.videoMaxDuration == c.maxDuration
  {
  }

  /** A canceled launch, or one without a first asset, ends the press with
      neither a callback nor an alert. */
  lemma CanceledPress(c: Config, prior: WidgetState, permission: PermissionReply, launch: LaunchReply)
    ensures var p := PickMedia(c, prior, permission, launch);
            && (p.outcome == Canceled <==> permission == PermissionResponse(true) && OffersNothing(launch))
            && (p.outcome == Canceled ==> Alerts(p.effects) == [] && Deliveries(p.effects) == [])
  {
    PressAlerts(c, prior, permission, launch);
    PressDeliveries(c, prior, permission, launch);
  }

  /** The validation of one asset: too long exactly above the duration
      limit, too large exactly when short enough and above a non-zero size
      limit, otherwise selected as the asset's projection, which happens
      exactly within both limits. */
  lemma ValidateCases(c: Config, a: ProviderAsset)
    ensures var o := Validate(c, a);
            && (o.TooLong? <==> a.kind == "video" && a.duration.Some? && a.duration.value > c.maxDuration * MillisPerSecond)
            && (o.TooLong? ==> o == TooLong(c.maxDuration))
            && (o.TooLarge? <==>
                  && !(a.kind == "video" && a.duration.Some? && a.duration.value > c.maxDuration * MillisPerSecond)
                  && c.maxFileSize.Some? && c.maxFileSize.value != 0
                  && a.fileSize.Some? && a.fileSize.value > c.maxFileSize.value * BytesPerMegabyte)
            && (o.TooLarge? ==> c.maxFileSize.Some? && o == TooLarge(c.maxFileSize.value))
            && (o.Selected? <==> WithinLimits(c, a))
            && (o.Selected? ==> o == Selected(ToMediaAsset(a)))
            && (o.TooLong? || o.TooLarge? || o.Selected?)
  {
  }

  /** The first asset of a launch result is the one asset it offers. */
  lemma OfferedAsset(launch: LaunchReply)
    requires launch.LaunchResult?
    ensures FirstAsset(launch).Some? ==> Offers(launch, FirstAsset(launch).value)
    ensures FirstAsset(launch).None? <==> OffersNothing(launch)
    ensures forall a | Offers(launch, a) :: FirstAsset(launch) == Some(a)
  {
  }

  /** The outcome of a press, stage by stage. */
  lemma PressOutcome(c: Config, prior: WidgetState, permission: PermissionReply, launch: LaunchReply)
    ensures var o := PickMedia(c, prior, permission, launch).outcome;
            && (permission.PermissionFault? ==> o == Faulted)
            && (permission == PermissionResponse(false) ==> o == Denied)
            && (permission == PermissionResponse(true) && launch.LaunchFault? ==> o == Faulted)
            && (permission == PermissionResponse(true) && launch.LaunchResult? && FirstAsset(launch).None? ==>
                  o == Canceled)
            && (permission == PermissionResponse(true) && launch.LaunchResult? && FirstAsset(launch).Some? ==>
                  o == Validate(c, FirstAsset(launch).value))
  {
    PressShape(c, prior, permission, launch);
  }

  /** A video is rejected as too long exactly when its duration is strictly
      above the limit; the alert names the limit in seconds. */
  lemma TooLongPress(c: Config, prior: WidgetState, permission: PermissionReply, launch: LaunchReply)
    ensures var p := PickMedia(c, prior, permission, launch);
            && (p.outcome.TooLong? <==>
                  && permission == PermissionResponse(true)
                  && launch.LaunchResult?
                  && FirstAsset(launch).Some?
                  && var a := FirstAsset(launch).value;
                     a.kind == "video" && a.duration.Some? && a.duration.value > c.maxDuration * MillisPerSecond)
            && (p.outcome.TooLong? ==>
                  && Alerts(p.effects) == [TooLongAlert(c.maxDuration)]
                  && Deliveries(p.effects) == [])
  {
    PressOutcome(c, prior, permission, launch);
    PressAlerts(c, prior, permission, launch);
    PressDeliveries(c, prior, permission, launch);
    if permission == PermissionResponse(true) && launch.LaunchResult? && FirstAsset(launch).Some? {
      ValidateCases(c, FirstAsset(launch).value);
    }
  }

  /** A short-enough asset is rejected as too large exactly when a non-zero
      size limit is set and its size is strictly above it; the alert names
      the limit in megabytes. */
  lemma TooLargePress(c: Config, prior: WidgetState, permission: PermissionReply, launch: LaunchReply)
    ensures var p := PickMedia(c, prior, permission, launch);
            && (p.outcome.TooLarge? <==>
                  && permission == PermissionResponse(true)
                  && launch.LaunchResult?
                  && FirstAsset(launch).Some?
                  && var a := FirstAsset(launch).value;
                     && !(a.kind == "video" && a.duration.Some? && a.duration.value > c.maxDuration * MillisPerSecond)
                     && c.maxFileSize.Some? && c.maxFileSize.value != 0
                     && a.fileSize.Some? && a.fileSize.value > c.maxFileSize.value * BytesPerMegabyte)
            && (p.outcome.TooLarge? ==>
                  && Alerts(p.effects) == [TooLargeAlert(c.maxFileSize.value)]
                  && Deliveries(p.effects) == [])
  {
    PressOutcome(c, prior, permission, launch);
    PressAlerts(c, prior, permission, launch);
    PressDeliveries(c, prior, permission, launch);
    if permission == PermissionResponse(true) && launch.LaunchResult? && FirstAsset(launch).Some? {
      ValidateCases(c, FirstAsset(launch).value);
    }
  }

  /** The limit alerts name the configured limit in decimal, and the
      number can be read back from it. */
  lemma LimitAlertsNameLimit(n: nat)
    ensures Decimal.Contains(TooLongAlert(n).message, Decimal.FromNat(n))
    ensures Decimal.Contains(TooLargeAlert(n).message, Decimal.FromNat(n))
    ensures Decimal.Value(Decimal.FromNat(n)) == n
  {
    Decimal.ContainsMiddle("La vidéo ne doit pas dépasser ", Decimal.FromNat(n), " secondes.");
    Decimal.ContainsMiddle("Le fichier ne doit pas dépasser ", Decimal.FromNat(n), " MB.");
    Decimal.ValueOfFromNat(n);
  }

  /** A press selects exactly when permission is granted and the offered
      asset is within both limits; the caller then receives that asset's
      fields unchanged, once, and sees no alert. */
  lemma SelectedPress(c: Config, prior: WidgetState, permission: PermissionReply, launch: LaunchReply)
    ensures var p := PickMedia(c, prior, permission, launch);
            && (p.outcome.Selected? <==>
                  permission == PermissionResponse(true) && exists a :: Offers(launch, a) && WithinLimits(c, a))
            && (forall a | Offers(launch, a) && p.outcome.Selected? ::
                  var m := p.outcome.asset;
                  && m.uri == a.uri && m.kind == a.kind && m.duration == a.duration
                  && m.width == a.width && m.height == a.height
                  && m.fileName == a.fileName && m.fileSize == a.fileSize
                  && Deliveries(p.effects) == [m]
                  && Alerts(p.effects) == [])
  {
    var p := PickMedia(c, prior, permission, launch);
    PressOutcome(c, prior, permission, launch);
    PressAlerts(c, prior, permission, launch);
    PressDeliveries(c, prior, permission, launch);
    if launch.LaunchResult? {
      OfferedAsset(launch);
      if FirstAsset(launch).Some? {
        ValidateCases(c, FirstAsset(launch).value);
      }
    }
  }

  /** The safety property: whatever the replies, every asset handed to the
      caller is the offered asset and lies within both limits. */
  lemma CallbackOnlyWithinLimits(c: Config, prior: WidgetState, permission: PermissionReply, launch: LaunchReply)
    ensures var p := PickMedia(c, prior, permission, launch);
            forall m | m in Deliveries(p.effects) ::
              exists a :: Offers(launch, a) && WithinLimits(c, a) && m == ToMediaAsset(a)
  {
    var p := PickMedia(c, prior, permission, launch);
    PressOutcome(c, prior, permission, launch);
    PressDeliveries(c, prior, permission, launch);
    if p.outcome.Selected? {
      var a := FirstAsset(launch).value;
      OfferedAsset(launch);
      ValidateCases(c, a);
      assert Offers(launch, a) && WithinLimits(c, a) && p.outcome.asset == ToMediaAsset(a);
    }
  }

  /** A rejected provider promise, at either call, raises the generic error
      alert once and never calls back; a fault of the permission request
      keeps the previous permission flag. */
  lemma FaultPress(c: Config, prior: WidgetState, permission: PermissionReply, launch: LaunchReply)
    ensures var p := PickMedia(c, prior, permission, launch);
            && (p.outcome == Faulted <==>
                  permission.PermissionFault? || (permission == PermissionResponse(true) && launch.LaunchFault?))
            && (p.outcome == Faulted ==>
                  && Alerts(p.effects) == [Alert("Erreur", "Impossible de sélectionner le média")]
                  && Deliveries(p.effects) == []
                  && !p.state.isLoading)
            && (permission.PermissionFault? ==> p.state.permissionDenied == prior.permissionDenied)
  {
    PressAlerts(c, prior, permission, launch);
    PressDeliveries(c, prior, permission, launch);
  }

  /** The limits at their edges: a video exactly at the limit is accepted,
      an image is never checked for duration, a missing or zero size limit
      never rejects. */
  lemma LimitEdges(c: Config, a: ProviderAsset)
    ensures a.kind == "video" && a.duration == Some(c.maxDuration * MillisPerSecond) ==> !TooLongFor(c, a)
    ensures a.kind != "video" ==> !TooLongFor(c, a)
    ensures a.duration.None? || a.duration == Some(0) ==> !TooLongFor(c, a)
    ensures c.maxFileSize.None? || c.maxFileSize == Some(0) ==> !TooLargeFor(c, a)
    ensures !TooLongFor(c, a) && !TooLargeFor(c, a) <==> WithinLimits(c, a)
  {
  }

  /** After any press the button is enabled again and shows its idle label,
      and the inline error shows exactly when the widget is marked denied. */
  lemma ViewAfterPress(c: Config, prior: WidgetState, permission: PermissionReply, launch: LaunchReply)
    ensures var p := PickMedia(c, prior, permission, launch);
            var v := Render(p.state, c.mediaType);
            && !v.disabled
            && v.caption != "Chargement..."
            && (v.errorText.Some? <==>
                  permission == PermissionResponse(false) || (permission.PermissionFault? && prior.permissionDenied))
  {
    StateFollowsTrace(c, prior, permission, launch);
  }
}
