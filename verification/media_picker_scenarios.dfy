/** Concrete presses: the situations the component's test file describes,
    stated as facts about the model. */
module MediaPickerScenarios {
  import opened Optional
  import opened Media
  import opened MediaPicker
  import opened MediaPickerSession
  import MediaPickerProofs
  import Decimal

  const DefaultConfig: Config := Configure(PickerProps(None, None, None))

  function VideoAsset(uri: string, duration: nat): ProviderAsset {
    ProviderAsset(uri, "video", Some(duration), Some(1920), Some(1080), None, None, None)
  }

  function Offering(a: ProviderAsset): LaunchReply {
    LaunchResult(false, Some([a]))
  }

  /** A 10-second video under the default configuration is handed to the
      caller with its uri, type and duration. */
  lemma ShortVideoSelected()
    ensures var a := ProviderAsset("file:///video.mp4", "video", Some(10000), Some(1920), Some(1080),
                                   Some("video.mp4"), None, None);
            var p := PickMedia(DefaultConfig, InitialState, PermissionResponse(true), Offering(a));
            && Deliveries(p.effects) == [MediaAsset("file:///video.mp4", "video", Some(10000), Some(1920),
                                                   Some(1080), Some("video.mp4"), None)]
            && Alerts(p.effects) == []
  {
    var a := ProviderAsset("file:///video.mp4", "video", Some(10000), Some(1920), Some(1080),
                           Some("video.mp4"), None, None);
    MediaPickerProofs.PressAlerts(DefaultConfig, InitialState, PermissionResponse(true), Offering(a));
    MediaPickerProofs.PressDeliveries(DefaultConfig, InitialState, PermissionResponse(true), Offering(a));
  }

  const Limit120: Config := Configure(PickerProps(Some("video"), Some(120), None))

  /** A 150-second video against a 120-second limit is refused with the
      "Vidéo trop longue" alert naming 120, and the caller is not called. */
  lemma LongVideoRejected()
    ensures var p := PickMedia(Limit120, InitialState, PermissionResponse(true),
                               Offering(VideoAsset("file:///long-video.mp4", 150000)));
            && p.outcome == TooLong(120)
            && Alerts(p.effects) == [TooLongAlert(120)]
            && TooLongAlert(120).title == "Vidéo trop longue"
            && Decimal.Contains(TooLongAlert(120).message, "120")
            && Deliveries(p.effects) == []
  {
    var long := Offering(VideoAsset("file:///long-video.mp4", 150000));
    var p := PickMedia(Limit120, InitialState, PermissionResponse(true), long);
    assert p.outcome == TooLong(120);
    MediaPickerProofs.PressAlerts(Limit120, InitialState, PermissionResponse(true), long);
    MediaPickerProofs.PressDeliveries(Limit120, InitialState, PermissionResponse(true), long);
    OneTwentyRendered();
    MediaPickerProofs.LimitAlertsNameLimit(120);
  }

  lemma OneTwentyRendered()
    ensures Decimal.FromNat(120) == "120"
  {
    assert Decimal.FromNat(1) == ['1'];
    assert Decimal.FromNat(12) == ['1', '2'];
  }

  /** Against the same limit a 60-second video is accepted with its
      duration, and so is one of exactly 120 seconds. */
  lemma VideoWithinLimitAccepted()
    ensures var p := PickMedia(Limit120, InitialState, PermissionResponse(true),
                               Offering(VideoAsset("file:///v.mp4", 60000)));
            p.outcome.Selected? && p.outcome.asset.duration == Some(60000)
    ensures PickMedia(Limit120, InitialState, PermissionResponse(true),
                      Offering(VideoAsset("file:///v.mp4", 120000))).outcome.Selected?
  {
  }

  /** A 6 MB image. */
  const SixMegabyteImage: ProviderAsset :=
    ProviderAsset("file:///i.jpg", "image", None, None, None, None, Some(6 * 1024 * 1024), None)

  function ImageLimit(maxFileSize: Option<nat>): Config {
    Configure(PickerProps(Some("image"), None, maxFileSize))
  }

  lemma SixMegabytesOverFive()
    ensures var p := PickMedia(ImageLimit(Some(5)), InitialState, PermissionResponse(true),
                               Offering(SixMegabyteImage));
            && p.outcome == TooLarge(5)
            && Alerts(p.effects) == [TooLargeAlert(5)]
  {
    MediaPickerProofs.PressAlerts(ImageLimit(Some(5)), InitialState, PermissionResponse(true),
                                  Offering(SixMegabyteImage));
  }

  lemma SixMegabytesUnlimited(maxFileSize: Option<nat>)
    requires maxFileSize == None || maxFileSize == Some(0)
    ensures PickMedia(ImageLimit(maxFileSize), InitialState, PermissionResponse(true),
                      Offering(SixMegabyteImage)).outcome.Selected?
  {
  }

  /** A 5 MB limit refuses a 6 MB file with the "Fichier trop volumineux"
      alert; without a limit, or with a limit of 0, the same file passes. */
  lemma SizeLimitScenarios()
    ensures var p := PickMedia(ImageLimit(Some(5)), InitialState, PermissionResponse(true),
                               Offering(SixMegabyteImage));
            && p.outcome == TooLarge(5)
            && Alerts(p.effects) == [TooLargeAlert(5)]
            && TooLargeAlert(5).title == "Fichier trop volumineux"
    ensures && PickMedia(ImageLimit(None), InitialState, PermissionResponse(true),
                         Offering(SixMegabyteImage)).outcome.Selected?
            && PickMedia(ImageLimit(Some(0)), InitialState, PermissionResponse(true),
                         Offering(SixMegabyteImage)).outcome.Selected?
  {
    SixMegabytesOverFive();
    SixMegabytesUnlimited(None);
    SixMegabytesUnlimited(Some(0));
  }

  /** A canceled selection still launches the gallery but ends with neither
      a callback nor an alert. */
  lemma CanceledScenario()
    ensures var p := PickMedia(DefaultConfig, InitialState, PermissionResponse(true), LaunchResult(true, None));
            && p.outcome == Canceled
            && LaunchPicker(LaunchOptions(Videos, false, 1, 120)) in p.effects
            && Deliveries(p.effects) == []
            && Alerts(p.effects) == []
  {
    var p := PickMedia(DefaultConfig, InitialState, PermissionResponse(true), LaunchResult(true, None));
    MediaPickerProofs.PressAlerts(DefaultConfig, InitialState, PermissionResponse(true), LaunchResult(true, None));
    MediaPickerProofs.PressDeliveries(DefaultConfig, InitialState, PermissionResponse(true), LaunchResult(true, None));
    assert p.effects[3] == LaunchPicker(LaunchOptions(Videos, false, 1, 120));
  }

  /** A refusal raises the "Permission requise" alert, whose message asks
      for access ("accès"), and shows the inline error; a second press that
      is granted clears the inline error. */
  lemma DenyThenGrantScenario()
    ensures var deny := PressInput(PermissionResponse(false), LaunchResult(true, None));
            var grant := PressInput(PermissionResponse(true), LaunchResult(true, None));
            && Render(FinalState(DefaultConfig, InitialState, [deny]), "video").errorText.Some?
            && Render(FinalState(DefaultConfig, InitialState, [deny, grant]), "video").errorText.None?
            && Alerts(RunPress(DefaultConfig, InitialState, deny).effects) == [PermissionAlert]
            && PermissionAlert.title == "Permission requise"
            && Decimal.Contains(PermissionAlert.message, "accès")
  {
    var deny := PressInput(PermissionResponse(false), LaunchResult(true, None));
    var grant := PressInput(PermissionResponse(true), LaunchResult(true, None));
    MediaPickerProofs.PressAlerts(DefaultConfig, InitialState, deny.permission, deny.launch);
    PermissionMessageAsksAccess();
    SessionPermissionFlag(DefaultConfig, InitialState, [deny]);
    SessionPermissionFlag(DefaultConfig, InitialState, [deny, grant]);
    assert [deny, grant][..1] == [deny];
  }

  lemma PermissionMessageAsksAccess()
    ensures Decimal.Contains(PermissionAlert.message, "accès")
  {
    Decimal.ContainsMiddle("Vous devez autoriser l'", "accès", " à la galerie pour sélectionner des médias.");
  }

  /** A rejected permission request raises the generic error alert and
      leaves the widget idle. */
  lemma FaultScenario()
    ensures var p := PickMedia(DefaultConfig, InitialState, PermissionFault, LaunchResult(true, None));
            && Alerts(p.effects) == [Alert("Erreur", "Impossible de sélectionner le média")]
            && !p.state.isLoading
            && Deliveries(p.effects) == []
  {
    MediaPickerProofs.FaultPress(DefaultConfig, InitialState, PermissionFault, LaunchResult(true, None));
  }
}
