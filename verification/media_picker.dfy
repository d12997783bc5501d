/** The media picker button (components/video/MediaPicker.tsx).

    One press of the button runs `pickMedia`: ask the gallery provider for
    permission, launch the gallery with a media-type filter, check the first
    chosen asset against the duration and size limits, and hand it to the
    caller. Here a press is a pure function of the configuration, the widget
    state before the press and the two provider replies. It yields the
    outcome, the ordered trace of what the press did (state updates, provider
    calls, alerts, callback invocations) and the widget state afterwards. */
module MediaPicker {
  import opened Optional
  import opened Media
  import Decimal

  // ---------------------------------------------------------------------
  // Configuration
  // ---------------------------------------------------------------------

  const DefaultMediaType: string := "video"
  const DefaultMaxDuration: nat := 120
  const MillisPerSecond: nat := 1000
  const BytesPerMegabyte: nat := 1024 * 1024

  /** The props after the destructuring defaults have been applied. */
  datatype Config = Config(mediaType: string, maxDuration: nat, maxFileSize: Option<nat>)

  /** Omitted `mediaType` means video, omitted `maxDuration` means 120 s, and
      `maxFileSize` has no default. */
  function Configure(props: PickerProps): (c: Config)
    ensures props.mediaType.None? ==> c.mediaType == "video"
    ensures props.mediaType.Some? ==> c.mediaType == props.mediaType.value
    ensures props.maxDuration.None? ==> c.maxDuration == 120
    ensures props.maxDuration.Some? ==> c.maxDuration == props.maxDuration.value
    ensures c.maxFileSize == props.maxFileSize
  {
    Config(
      props.mediaType.GetOr(DefaultMediaType),
      props.maxDuration.GetOr(DefaultMaxDuration),
      props.maxFileSize)
  }

  // ---------------------------------------------------------------------
  // The gallery provider
  // ---------------------------------------------------------------------

  /** The media-type filter handed to the gallery. */
  datatype MediaTypeOptions = Videos | Images | All

  /** The options of one gallery launch. */
  datatype LaunchOptions = LaunchOptions(
    mediaTypes: MediaTypeOptions,
    allowsEditing: bool,
    quality: nat,
    videoMaxDuration: nat
  )

  /** The reply to the permission request: a verdict, or a rejected promise. */
  datatype PermissionReply = PermissionResponse(granted: bool) | PermissionFault

  /** An asset as the provider describes it. `assetId` stands for the fields
      the provider reports and the picker does not pass on. */
  datatype ProviderAsset = ProviderAsset(
    uri: string,
    kind: string,
    duration: Option<nat>,
    width: Option<nat>,
    height: Option<nat>,
    fileName: Option<string>,
    fileSize: Option<nat>,
    assetId: Option<string>
  )

  /** The reply to the launch: a result (possibly canceled, possibly without
      an asset list), or a rejected promise. */
  datatype LaunchReply =
    | LaunchResult(canceled: bool, assets: Option<seq<ProviderAsset>>)
    | LaunchFault

  /** The filter for the configured media type: videos for "video", images
      for "image", everything for any other value, "both" included. */
  function PickerMediaType(mediaType: string): (f: MediaTypeOptions)
    ensures f == Videos <==> mediaType == "video"
    ensures f == Images <==> mediaType == "image"
    ensures f == All <==> mediaType != "video" && mediaType != "image"
  {
    if mediaType == "video" then Videos
    else if mediaType == "image" then Images
    else All
  }

  function LaunchOptionsFor(c: Config): LaunchOptions {
    LaunchOptions(PickerMediaType(c.mediaType), false, 1, c.maxDuration)
  }

  /** The asset a launch result offers: none when canceled, when there is no
      asset list or when the list is empty, otherwise the first one. */
  function FirstAsset(reply: LaunchReply): Option<ProviderAsset>
    requires reply.LaunchResult?
  {
    if !reply.canceled && reply.assets.Some? && |reply.assets.value| > 0
    then Some(reply.assets.value[0])
    else None
  }

  // ---------------------------------------------------------------------
  // Limits
  // ---------------------------------------------------------------------

  /** JavaScript truthiness of an optional number: present and non-zero. */
  predicate Truthy(n: Option<nat>) {
    n.Some? && n.value != 0
  }

  /** The duration guard: a video whose (truthy) duration in milliseconds is
      strictly above the limit in seconds times 1000. */
  predicate TooLongFor(c: Config, a: ProviderAsset) {
    a.kind == "video" && Truthy(a.duration) && a.duration.value > c.maxDuration * MillisPerSecond
  }

  /** The size guard: a truthy size limit in megabytes and a truthy file
      size in bytes strictly above the limit times 1024 * 1024. */
  predicate TooLargeFor(c: Config, a: ProviderAsset) {
    && Truthy(c.maxFileSize)
    && Truthy(a.fileSize)
    && a.fileSize.value > c.maxFileSize.value * BytesPerMegabyte
  }

  /** The asset handed to the caller, built field by field from the
      provider's asset. */
  function ToMediaAsset(a: ProviderAsset): MediaAsset {
    MediaAsset(a.uri, a.kind, a.duration, a.width, a.height, a.fileName, a.fileSize)
  }

  // ---------------------------------------------------------------------
  // Alerts
  // ---------------------------------------------------------------------

  datatype Alert = Alert(title: string, message: string)

  const PermissionAlert: Alert :=
    Alert("Permission requise",
          "Vous devez autoriser l'" + "accès" + " à la galerie pour sélectionner des médias.")

  const FaultAlert: Alert := Alert("Erreur", "Impossible de sélectionner le média")

  function TooLongAlert(maxDuration: nat): Alert {
    Alert("Vidéo trop longue",
          "La vidéo ne doit pas dépasser " + Decimal.FromNat(maxDuration) + " secondes.")
  }

  function TooLargeAlert(maxFileSize: nat): Alert {
    Alert("Fichier trop volumineux",
          "Le fichier ne doit pas dépasser " + Decimal.FromNat(maxFileSize) + " MB.")
  }

  // ---------------------------------------------------------------------
  // Widget state and the press trace
  // ---------------------------------------------------------------------

  datatype WidgetState = WidgetState(permissionDenied: bool, isLoading: bool)

  const InitialState: WidgetState := WidgetState(false, false)

  /** One observable step of a press, in the order the flow performs it. */
  datatype Effect =
    | SetLoading(loading: bool)
    | RequestPermission
    | SetPermissionDenied(denied: bool)
    | LaunchPicker(options: LaunchOptions)
    | ShowAlert(alert: Alert)
    | Deliver(asset: MediaAsset)

  /** How a press ends. */
  datatype Outcome =
    | Denied
    | Canceled
    | TooLong(maxDuration: nat)
    | TooLarge(maxFileSize: nat)
    | Selected(asset: MediaAsset)
    | Faulted

  datatype Press = Press(outcome: Outcome, effects: seq<Effect>, state: WidgetState)

  /** What a state update does to the widget state; every other step leaves
      it alone. */
  function ApplyEffect(s: WidgetState, e: Effect): WidgetState {
    match e
    case SetLoading(on) => s.(isLoading := on)
    case SetPermissionDenied(d) => s.(permissionDenied := d)
    case _ => s
  }

  /** The widget state after replaying a trace. */
  function ApplyEffects(s: WidgetState, effects: seq<Effect>): WidgetState
    decreases |effects|
  {
    if |effects| == 0 then s else ApplyEffects(ApplyEffect(s, effects[0]), effects[1..])
  }

  /** The alerts a trace raises, in order. */
  function Alerts(effects: seq<Effect>): (alerts: seq<Alert>)
    ensures |alerts| <= |effects|
    ensures forall a :: a in alerts <==> ShowAlert(a) in effects
    decreases |effects|
  {
    if |effects| == 0 then []
    else (if effects[0].ShowAlert? then [effects[0].alert] else []) + Alerts(effects[1..])
  }

  /** The assets a trace hands to the caller, in order. */
  function Deliveries(effects: seq<Effect>): (assets: seq<MediaAsset>)
    ensures |assets| <= |effects|
    ensures forall m :: m in assets <==> Deliver(m) in effects
    decreases |effects|
  {
    if |effects| == 0 then []
    else (if effects[0].Deliver? then [effects[0].asset] else []) + Deliveries(effects[1..])
  }

  // ---------------------------------------------------------------------
  // pickMedia
  // ---------------------------------------------------------------------

  /** The checks on a chosen asset, in source order: duration first, then
      size; an asset passing both is selected unchanged. */
  function Validate(c: Config, a: ProviderAsset): Outcome {
    if TooLongFor(c, a) then TooLong(c.maxDuration)
    else if TooLargeFor(c, a) then TooLarge(c.maxFileSize.value)
    else Selected(ToMediaAsset(a))
  }

  /** The alert or the callback invocation that ends a validated pick. */
  function Report(o: Outcome): seq<Effect> {
    match o
    case TooLong(d) => [ShowAlert(TooLongAlert(d))]
    case TooLarge(m) => [ShowAlert(TooLargeAlert(m))]
    case Selected(m) => [Deliver(m)]
    case _ => []
  }

  /** How the launch stage ends once permission is granted: a rejected
      launch faults, a launch without a first asset is a cancel, otherwise
      the first asset is validated. */
  function LaunchOutcome(c: Config, launch: LaunchReply): Outcome {
    match launch
    case LaunchFault => Faulted
    case LaunchResult(_, _) =>
      match FirstAsset(launch)
      case None => Canceled
      case Some(a) => Validate(c, a)
  }

  /** How the `try` block ends: a rejected permission request faults, a
      refusal is a denial, a grant goes on to the launch stage. */
  function Decide(c: Config, permission: PermissionReply, launch: LaunchReply): Outcome {
    match permission
    case PermissionFault => Faulted
    case PermissionResponse(granted) => if granted then LaunchOutcome(c, launch) else Denied
  }

  /** The steps of the `try` block ending with outcome `o`: the permission
      request; on a refusal the denied flag and the permission alert; on a
      grant the cleared flag, the launch, and the report of the outcome. */
  function Attempted(c: Config, permission: PermissionReply, o: Outcome): seq<Effect> {
    match permission
    case PermissionFault => [RequestPermission]
    case PermissionResponse(granted) =>
      if granted then
        [RequestPermission, SetPermissionDenied(false), LaunchPicker(LaunchOptionsFor(c))] + Report(o)
      else
        [RequestPermission, SetPermissionDenied(true), ShowAlert(PermissionAlert)]
  }

  /** One press of the button: loading on, the `try` block, the `catch`
      alert on a fault, loading off in the `finally` block. The permission
      flag follows the last verdict; a fault of the permission request itself
      leaves it as it was. */
  function PickMedia(c: Config, prior: WidgetState, permission: PermissionReply, launch: LaunchReply): (p: Press)
    ensures p.outcome.Selected? ==> permission == PermissionResponse(true)
    ensures p.outcome.Denied? <==> permission == PermissionResponse(false)
    ensures p.outcome.TooLong? ==> p.outcome.maxDuration == c.maxDuration
    ensures p.outcome.TooLarge? ==> c.maxFileSize == Some(p.outcome.maxFileSize)
  {
    var outcome := Decide(c, permission, launch);
    var caught := if outcome.Faulted? then [ShowAlert(FaultAlert)] else [];
    var effects := [SetLoading(true)] + Attempted(c, permission, outcome) + caught + [SetLoading(false)];
    var denied :=
      match permission
      case PermissionResponse(granted) => !granted
      case PermissionFault => prior.permissionDenied;
    Press(outcome, effects, WidgetState(denied, false))
  }

  // ---------------------------------------------------------------------
  // Presentation
  // ---------------------------------------------------------------------

  const LoadingLabel: string := "Chargement..."

  /** The button label: the loading text while a press is in flight,
      otherwise a prompt for the configured media type. No prompt reads like
      the loading text. */
  function ButtonText(isLoading: bool, mediaType: string): (text: string)
    ensures isLoading ==> text == "Chargement..."
    ensures !isLoading && mediaType == "video" ==> text == "Sélectionner une vidéo"
    ensures !isLoading && mediaType == "image" ==> text == "Sélectionner une image"
    ensures !isLoading && mediaType != "video" && mediaType != "image" ==> text == "Sélectionner un média"
    ensures text == LoadingLabel <==> isLoading
  {
    if isLoading then LoadingLabel
    else if mediaType == "video" then "Sélectionner une vidéo"
    else if mediaType == "image" then "Sélectionner une image"
    else "Sélectionner un média"
  }

  const PermissionErrorText: string := "Permission d'accès à la galerie refusée"

  /** What the widget shows: the button label, whether the button is
      disabled, and the inline permission error text if any. */
  datatype View = View(caption: string, disabled: bool, errorText: Option<string>)

  /** The button is disabled exactly while loading and the error text shows
      exactly while permission is marked denied. */
  function Render(s: WidgetState, mediaType: string): (v: View)
    ensures v.disabled <==> s.isLoading
    ensures v.errorText.Some? <==> s.permissionDenied
    ensures v.errorText.Some? ==> v.errorText.value == PermissionErrorText
    ensures v.caption == LoadingLabel <==> s.isLoading
  {
    View(ButtonText(s.isLoading, mediaType), s.isLoading,
         if s.permissionDenied then Some(PermissionErrorText) else None)
  }
}
