# MediaPicker — a Dafny model of the media picker button

This project models the `MediaPicker` component of a mobile app that builds
sports highlight videos. The component is a button. A press asks the gallery
provider for permission and launches the gallery with a media-type filter.
It then checks the first chosen asset against a duration limit and a file
size limit, and hands it to the caller's `onMediaSelected` callback. The
button label reflects loading and the configured media type.

One press is a pure function, `MediaPicker.PickMedia`, of four things:

- the configuration: media type, default `"video"`; maximum duration in
  seconds, default 120; optional maximum file size in MB;
- the widget state before the press (`permissionDenied`, `isLoading`);
- the provider's permission reply: a verdict, or a fault;
- the provider's launch reply: a result, possibly canceled or without assets,
  or a fault.

It returns a `Press`, which holds three things:

- the **outcome**: `Denied`, `Canceled`, `TooLong(maxDuration)`,
  `TooLarge(maxFileSize)`, `Selected(asset)` or `Faulted`;
- the **trace**: the ordered steps the press performed, namely loading-flag
  updates, the permission request, permission-flag updates, the gallery
  launch with its options, alerts, and callback invocations;
- the widget state afterwards.

Numbers are natural numbers: milliseconds, bytes, seconds and MB. JavaScript
truthiness of an optional number is `Truthy`, meaning present and non-zero.
The alert texts use the decimal rendering of the configured limits
(`Decimal.FromNat`), so "the alert names 120" is a statement about strings.

Modules:

- `Optional`: optional values.
- `Decimal`: decimal numerals and substring search.
- `Media`: the asset and props types of `types/media.ts`.
- `MediaPicker`: the component itself.
- `MediaPickerProofs`: properties of one press.
- `MediaPickerSession`: a sequence of presses.
- `MediaPickerScenarios`: the concrete situations of the component's tests.

Three behaviours of the code a reader might not expect:

- `permissionDenied` is not reset when a press starts. A press whose
  permission request faults keeps the previous value (`FaultPress`,
  `SessionPermissionFlag`).
- The size check runs only when `maxFileSize` is truthy. A limit of `0`
  therefore disables the check instead of refusing every non-empty file
  (`LimitEdges`, `SizeLimitScenarios`).
- The permission flag is cleared only after a grant, never before the
  verdict (`LaunchIffGranted`).

## Model

| member | source | states |
|---|---|---|
| MediaPicker.Configure | components/video/MediaPicker.tsx:9-14 | an omitted media type means "video", an omitted duration limit means 120 s, the size limit has no default |
| MediaPicker.PickerMediaType | components/video/MediaPicker.tsx:36-44 | the launch filter is Videos exactly for "video", Images exactly for "image", All for every other value including "both" |
| MediaPicker.PickMedia | components/video/MediaPicker.tsx:18-93 | a selection happens only after a grant; the outcome is Denied exactly on a refusal; a rejection names the configured limit |
| MediaPicker.ButtonText | components/video/MediaPicker.tsx:95-100 | "Chargement..." exactly while loading, otherwise the video, image or generic prompt by media type |
| MediaPicker.Render | components/video/MediaPicker.tsx:102-122 | the button is disabled exactly while loading and the inline error text shows exactly while permission is marked denied |
| MediaPicker.Alerts | components/video/MediaPicker.tsx:27-30 | the alerts of a trace are no more than its steps, and an alert is reported exactly when the trace has a step raising it |
| MediaPicker.Deliveries | components/video/MediaPicker.tsx:85 | the callback invocations of a trace are no more than its steps, and an asset is reported exactly when the trace has a step handing it to the callback |
| MediaPickerProofs.PressAlerts | components/video/MediaPicker.tsx:18-93 | a refusal, a too-long video, a too-large file and a fault each raise exactly their one alert; a cancel and a selection raise none |
| MediaPickerProofs.PressDeliveries | components/video/MediaPicker.tsx:75-86 | the callback fires at most once per press, exactly on a selection, with the selected asset |
| MediaPickerProofs.StateFollowsTrace | components/video/MediaPicker.tsx:18-93 | replaying the trace gives the reported state: loading off, permission flag set to the verdict, or kept when the request faulted |
| MediaPickerProofs.LoadingThroughout | components/video/MediaPicker.tsx:19-21 | the trace begins by setting loading and ends by clearing it, with no other loading update, so every intermediate state is loading |
| MediaPickerProofs.DeniedPress | components/video/MediaPicker.tsx:23-32 | a refusal marks the widget denied, raises the permission alert once, never launches the gallery and never calls back |
| MediaPickerProofs.LaunchIffGranted | components/video/MediaPicker.tsx:23-52 | the gallery is launched exactly once when permission is granted and never otherwise, right after the denied flag is cleared |
| MediaPickerProofs.LaunchOptionsMatchConfig | components/video/MediaPicker.tsx:36-52 | the launch carries the configured filter, no editing, quality 1 and the configured duration limit |
| MediaPickerProofs.CanceledPress | components/video/MediaPicker.tsx:54 | the press ends canceled exactly when permission is granted and the launch is canceled or has no first asset, with no alert and no callback |
| MediaPickerProofs.TooLongPress | components/video/MediaPicker.tsx:57-64 | a video is refused as too long exactly when its duration is strictly above the limit times 1000, with the one duration alert and no callback |
| MediaPickerProofs.TooLargePress | components/video/MediaPicker.tsx:66-73 | an asset passing the duration check is refused as too large exactly when a non-zero limit is set and its size is strictly above limit times 1024 * 1024 |
| MediaPickerProofs.LimitAlertsNameLimit | components/video/MediaPicker.tsx:59-71 | both limit alerts contain the decimal numeral of the limit, from which the limit reads back |
| MediaPickerProofs.SelectedPress | components/video/MediaPicker.tsx:54-86 | a press selects exactly when permission is granted and the first offered asset is within both limits; the caller gets its seven fields unchanged, once, with no alert |
| MediaPickerProofs.CallbackOnlyWithinLimits | components/video/MediaPicker.tsx:57-85 | every asset handed to the callback is the offered asset and lies within both limits |
| MediaPickerProofs.FaultPress | components/video/MediaPicker.tsx:87-92 | a fault at either provider call raises exactly the "Erreur" alert, never calls back and ends idle; a permission fault keeps the previous flag |
| MediaPickerProofs.LimitEdges | components/video/MediaPicker.tsx:57-73 | a video exactly at the limit passes; images and zero or missing durations skip the duration check; a missing or zero size limit skips the size check |
| MediaPickerProofs.ViewAfterPress | components/video/MediaPicker.tsx:95-120 | after any press the button is enabled, not showing the loading label, and shows the error text exactly after a refusal or a faulted request on a denied widget |
| MediaPickerSession.SessionPermissionFlag | components/video/MediaPicker.tsx:25-34 | after a sequence of presses the permission flag is the last verdict the provider gave; a faulted request changes nothing |
| MediaPickerSession.SessionEndsIdle | components/video/MediaPicker.tsx:90-92 | a sequence of at least one press ends with loading off |
| MediaPickerSession.SessionCallbacks | components/video/MediaPicker.tsx:54-86 | in a sequence of presses each press calls back at most once, and only with an asset offered in that same press and within both limits; over the whole sequence there are no more callbacks than presses |
| Decimal.FromNat | components/video/MediaPicker.tsx:61 | the rendered limit is a canonical numeral: digits only, no leading zero, "0" only for zero |
| Decimal.ValueOfFromNat | components/video/MediaPicker.tsx:61 | reading back a rendered number gives the number |
| Decimal.FromNatOfValue | components/video/MediaPicker.tsx:70 | rendering the value of a canonical numeral gives the numeral back |
| Decimal.FromNatInjective | components/video/MediaPicker.tsx:61 | different limits render as different numerals |
| MediaPickerScenarios.ShortVideoSelected | __tests__/components/MediaPicker.test.tsx:117-153 | a 10-second video under the defaults reaches the callback with its uri, type and duration, with no alert |
| MediaPickerScenarios.LongVideoRejected | __tests__/components/MediaPicker.test.tsx:179-216 | a 150-second video against a 120-second limit raises "Vidéo trop longue" naming "120" and never calls back |
| MediaPickerScenarios.VideoWithinLimitAccepted | components/video/MediaPicker.tsx:58 | against a 120-second limit a 60-second video is selected with its duration, and so is one of exactly 120 seconds |
| MediaPickerScenarios.SizeLimitScenarios | components/video/MediaPicker.tsx:67-73 | a 6 MB image against a 5 MB limit raises "Fichier trop volumineux"; with no limit or a limit of 0 it is selected |
| MediaPickerScenarios.CanceledScenario | __tests__/components/MediaPicker.test.tsx:155-177 | a canceled selection still launches the gallery with the video filter but calls back and alerts nothing |
| MediaPickerScenarios.DenyThenGrantScenario | __tests__/components/MediaPicker.test.tsx:65-113 | a refusal raises exactly the "Permission requise" alert, whose message mentions "accès", and shows the inline error; after a following grant it is gone |
| MediaPickerScenarios.FaultScenario | __tests__/components/MediaPicker.test.tsx:300-319 | a rejected permission request raises "Erreur / Impossible de sélectionner le média", ends idle and never calls back |

## Left out

- Rendering, styles and the `TouchableOpacity` props other than `disabled` (components/video/MediaPicker.tsx:102-158). They are presentation only. `Render` keeps the label, the disabled flag and the inline error text.
- The `expo-image-picker` calls and `Alert.alert`. They are native APIs. Their replies are inputs to `PickMedia`, and the calls and alerts are steps of its trace.
- Asynchronous scheduling, a widget disposed mid-press, and re-entrant presses. A press is one atomic step, and a session runs presses one after another, as the disabled button enforces.
- `console.error` in the `catch` block. It has no observable contract.
- JavaScript floating-point `number`. Durations, sizes and limits are natural numbers, so fractional, negative, `NaN` and `null` limits are not modelled. Nor are very large values: from 10^21 on, `${maxDuration}` (components/video/MediaPicker.tsx:61, 70) prints exponent form such as `1e+21`, while `Decimal.FromNat` always prints every digit; and above 2^53 the products `maxDuration * 1000` (line 58) and `maxFileSize * 1024 * 1024` (line 67) round, while the model computes them exactly.
- A callback that throws. The model assumes `onMediaSelected` returns normally. In the source, a throw would be caught and would raise the "Erreur" alert after the delivery.
- A falsy element (`null`) at the head of a non-empty asset list. The model offers the first element of any non-empty list.
- An asset without a `type`. The model always gives an asset a type string.
- The provider asset's other fields. One field, `assetId`, stands in for them to show that they are dropped when the asset is built.
- types/template.ts, and `VideoMetadata` and `MediaError` in types/media.ts. They are type declarations that the picker does not use.
