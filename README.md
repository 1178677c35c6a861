# Carrier privileges screen — a Dafny model

This project models the one screen of the carrier-privileges test app: an
Android activity that asks for the phone-state permission, enumerates the
active SIM subscriptions, asks the telephony service whether the app holds
carrier privileges on each of them, and shows one status card per SIM slot.

The platform is abstracted as plain inputs (`MainActivity.Platform`):

- whether the phone-state permission is granted;
- the outcome of asking the subscription service for the active
  subscriptions (`SlotStatus.Enumeration`): no service, no list, a list, or
  a security exception;
- the telephony service, if present (`SlotStatus.Telephony`): its phone
  (slot) count, and per subscription id the answer of the per-subscription
  manager to "has carrier privileges?". An id missing from that map stands
  for a per-subscription manager that does not exist.

Modules:

- `Wrappers` — `Option`, standing for Kotlin's nullable values.
- `Decimal` — the decimal numeral of a number (the `${slotIndex + 1}` in
  the slot label) and its inverse.
- `SlotStatus` — the card record, the three fixed cards ("Sin SIMs",
  "Vacío", "Permiso denegado") and the pure mapping from the platform's
  answers to the list of cards (`LookupCards`), with its properties.
- `CardRendering` — the decisions `createSlotCard` makes: title line, carrier
  line visibility, status line, icon and colour category (`Gray`, `Green`,
  `Red`).
- `MainActivity` — the `Screen` class: the slot container as a
  `seq<Card>` field that the methods clear and append to, the permission
  indicator, the listener bound to the refresh button, the rationale dialog,
  and the lifecycle and permission entry points. A ghost counter
  `enumerations` records each attempt to enumerate the active subscriptions
  (one per run of the lookup, also when the subscription service is absent),
  so that the contracts can say the permission-less paths never make one.

`CheckCarrierPrivileges` is proved against `SlotStatus.LookupCards`: the
container it leaves is exactly that function of the platform, which gives
idempotence (`CheckCarrierPrivilegesTwice`, `RefreshTwice`) and carries all
lemmas about `LookupCards` over to the screen.

## Model

| member | source | states |
|---|---|---|
| `SlotStatus.ActiveSubscriptions` | app/src/main/java/com/octolytics/octopulse/octopulsecarriertest/MainActivity.kt:164-172 | a list is used as it is; any non-empty result comes from a list, so a missing service, a missing list and a security exception give no subscriptions (consequence for the screen stated by `EnumerationFailuresReadAsEmpty`) |
| `SlotStatus.SlotCount` | app/src/main/java/com/octolytics/octopulse/octopulsecarriertest/MainActivity.kt:174 | the phone count of the telephony service, or 2 without one (its effect on the number of cards is stated by `LookupCards` and `LookupSlotIndices`) |
| `SlotStatus.HasPrivileges` | app/src/main/java/com/octolytics/octopulse/octopulsecarriertest/MainActivity.kt:192-193 | never true without a telephony service; true only when the per-subscription manager for the id exists and reports true (both directions on the cards stated by `OccupiedCardShowsFirstMatch`) |
| `SlotStatus.SubscriptionCard` | app/src/main/java/com/octolytics/octopulse/octopulsecarriertest/MainActivity.kt:188-197 | a non-empty card for the slot with no subtitle, titled with the display name or "SIM desconocida", carrier name or "" (per slot stated by `OccupiedCardShowsFirstMatch`) |
| `SlotStatus.FindBySlot` | app/src/main/java/com/octolytics/octopulse/octopulsecarriertest/MainActivity.kt:185 | returns nothing exactly when no subscription sits in the slot; otherwise a subscription in the slot with none before it in list order |
| `SlotStatus.SlotCard` | app/src/main/java/com/octolytics/octopulse/octopulsecarriertest/MainActivity.kt:185-201 | the card carries the slot index; it is empty exactly when no subscription sits in the slot and is then the "Vacío" card; otherwise it is the card of the first subscription in the slot |
| `SlotStatus.SlotCards` | app/src/main/java/com/octolytics/octopulse/octopulsecarriertest/MainActivity.kt:184-202 | for `0 until n`: exactly max(n, 0) cards, card i being the card of slot i |
| `SlotStatus.LookupCards` | app/src/main/java/com/octolytics/octopulse/octopulsecarriertest/MainActivity.kt:164-202 | no subscriptions give the single "Sin SIMs" card; otherwise exactly slotCount cards (the phone count, or 2 without a telephony service; none if slotCount <= 0, so a zero phone count with subscriptions leaves the container empty), card i being the card of slot i |
| `SlotStatus.EnumerationFailuresReadAsEmpty` | app/src/main/java/com/octolytics/octopulse/octopulsecarriertest/MainActivity.kt:167-182 | a security exception, a missing service and a missing list give the same cards as an empty list: the single "Sin SIMs" card |
| `SlotStatus.LookupSlotIndices` | app/src/main/java/com/octolytics/octopulse/octopulsecarriertest/MainActivity.kt:174-202 | with subscriptions, card i has slot index i, every slot index lies in [0, slotCount), and slot indices are unique |
| `SlotStatus.OutOfRangeSubscriptionHasNoCard` | app/src/main/java/com/octolytics/octopulse/octopulsecarriertest/MainActivity.kt:184-185 | a subscription whose slot index lies outside [0, slotCount) gets no card |
| `SlotStatus.OccupiedCardShowsFirstMatch` | app/src/main/java/com/octolytics/octopulse/octopulsecarriertest/MainActivity.kt:185-197 | an occupied card shows the first subscription of its slot: display name or "SIM desconocida", carrier name or "", no subtitle; it has privileges exactly when the telephony service exists and the per-subscription manager for that id exists and reports true |
| `SlotStatus.UnoccupiedSlotShowsEmptyCard` | app/src/main/java/com/octolytics/octopulse/octopulsecarriertest/MainActivity.kt:198-200 | a slot in range that no subscription occupies shows "Vacío" / "Sin SIM insertada", empty and without privileges |
| `SlotStatus.AllProducedCardsWellFormed` | app/src/main/java/com/octolytics/octopulse/octopulsecarriertest/MainActivity.kt:141-200 | every card of the lookup and the denied card is well formed; an empty card never claims privileges |
| `Decimal.DecimalString` | app/src/main/java/com/octolytics/octopulse/octopulsecarriertest/MainActivity.kt:255 | the slot number prints as a non-empty string of digits without a leading zero |
| `Decimal.ParseDecimalOfDecimal` | app/src/main/java/com/octolytics/octopulse/octopulsecarriertest/MainActivity.kt:255 | reading back the printed number gives the number |
| `Decimal.DecimalInjective` | app/src/main/java/com/octolytics/octopulse/octopulsecarriertest/MainActivity.kt:255 | different slot numbers print differently |
| `CardRendering.SlotLabel` | app/src/main/java/com/octolytics/octopulse/octopulsecarriertest/MainActivity.kt:255 | the slot label is non-empty exactly when the slot index is non-negative |
| `CardRendering.TitleText` | app/src/main/java/com/octolytics/octopulse/octopulsecarriertest/MainActivity.kt:255-257 | "Slot " + (slotIndex+1) + ": " + title when slotIndex >= 0, the bare title otherwise |
| `CardRendering.SlotLabelNamesSlot` | app/src/main/java/com/octolytics/octopulse/octopulsecarriertest/MainActivity.kt:255-257 | the digits after "Slot " in a slot card's title read back as slotIndex + 1 |
| `CardRendering.CarrierVisible` | app/src/main/java/com/octolytics/octopulse/octopulsecarriertest/MainActivity.kt:263-268 | the carrier line shows exactly when the carrier name is present and non-empty, and then shows that name |
| `CardRendering.StatusText` | app/src/main/java/com/octolytics/octopulse/octopulsecarriertest/MainActivity.kt:270-275 | a subtitle wins; without one, the privileged message exactly when the card has privileges, the other message exactly when not |
| `CardRendering.CardColour` | app/src/main/java/com/octolytics/octopulse/octopulsecarriertest/MainActivity.kt:277-283 | Gray exactly when empty; Green exactly when non-empty with privileges; Red exactly when non-empty without |
| `CardRendering.CardIcon` | app/src/main/java/com/octolytics/octopulse/octopulsecarriertest/MainActivity.kt:234-247 | the check icon shows exactly when the colour is Green |
| `CardRendering.CarrierText` | app/src/main/java/com/octolytics/octopulse/octopulsecarriertest/MainActivity.kt:264 | the carrier name, or "" when there is none (its visibility stated by `CarrierVisible`) |
| `CardRendering.Render` | app/src/main/java/com/octolytics/octopulse/octopulsecarriertest/MainActivity.kt:205-296 | the card on screen: icon and status line share one colour, the check icon goes with Green, a visible carrier line is never blank (case by case stated by `WellFormedCardRendering` and `FixedCardsRendering`) |
| `CardRendering.WellFormedCardRendering` | app/src/main/java/com/octolytics/octopulse/octopulsecarriertest/MainActivity.kt:230-284 | on a well-formed card, status text, colour and icon agree: grey subtitle and hidden carrier on empty cards, green privileged message, red non-privileged message |
| `CardRendering.FixedCardsRendering` | app/src/main/java/com/octolytics/octopulse/octopulsecarriertest/MainActivity.kt:255-283 | the "Vacío" card reads "Slot k+1: Vacío"; "Sin SIMs" and "Permiso denegado" show their bare titles; all three are grey |
| `MainActivity.PermissionIndicator` | app/src/main/java/com/octolytics/octopulse/octopulsecarriertest/MainActivity.kt:78-90 | granted: "Concedido", green check, no request button; not granted: "No concedido", red cross, request button visible |
| `MainActivity.Screen.UpdatePermissionStatusUI` | app/src/main/java/com/octolytics/octopulse/octopulsecarriertest/MainActivity.kt:72-91 | the indicator fields become the indicator of the current permission state, nothing else changes |
| `MainActivity.Screen.ShowPermissionDeniedState` | app/src/main/java/com/octolytics/octopulse/octopulsecarriertest/MainActivity.kt:133-152 | refresh is rebound to the permission check and the container holds only the "Permiso denegado" card |
| `MainActivity.Screen.CheckCarrierPrivileges` | app/src/main/java/com/octolytics/octopulse/octopulsecarriertest/MainActivity.kt:154-203 | refresh is rebound to refresh, the service is queried once, and the container holds exactly `LookupCards` of the platform, all well formed |
| `MainActivity.Screen.CheckPermissionAndProceed` | app/src/main/java/com/octolytics/octopulse/octopulsecarriertest/MainActivity.kt:100-112 | with the permission the lookup runs; without it the rationale dialog shows, the cards stay and nothing is queried |
| `MainActivity.Screen.ShowPermissionRationaleDialog` | app/src/main/java/com/octolytics/octopulse/octopulsecarriertest/MainActivity.kt:114-131 | the rationale dialog is showing |
| `MainActivity.Screen.RationaleConfirmed` | app/src/main/java/com/octolytics/octopulse/octopulsecarriertest/MainActivity.kt:122-124 | the dialog closes and one permission request is launched |
| `MainActivity.Screen.RationaleCancelled` | app/src/main/java/com/octolytics/octopulse/octopulsecarriertest/MainActivity.kt:125-128 | the dialog closes and the denied state shows |
| `MainActivity.Screen.RequestPermissionClicked` | app/src/main/java/com/octolytics/octopulse/octopulsecarriertest/MainActivity.kt:66-70 | the permission button launches one permission request |
| `MainActivity.Screen.OnPermissionResult` | app/src/main/java/com/octolytics/octopulse/octopulsecarriertest/MainActivity.kt:35-44 | the indicator is updated; a grant runs the lookup, a refusal shows the denied card without querying the service |
| `MainActivity.Screen.OnResume` | app/src/main/java/com/octolytics/octopulse/octopulsecarriertest/MainActivity.kt:54-60 | the indicator is updated; with the permission the lookup runs, without it the cards and refresh listener stay and nothing is queried |
| `MainActivity.Screen.OnCreate` | app/src/main/java/com/octolytics/octopulse/octopulsecarriertest/MainActivity.kt:46-52 | the operator name is shown, then the permission check proceeds as in `CheckPermissionAndProceed`: with the permission the lookup runs and the dialog state stays; without it the dialog shows and cards, refresh listener and counter stay |
| `MainActivity.Screen.Refresh` | app/src/main/java/com/octolytics/octopulse/octopulsecarriertest/MainActivity.kt:298-317 | the indicator is updated; with the permission the lookup runs, without it the denied card shows and nothing is queried |
| `MainActivity.Screen.RefreshClicked` | app/src/main/java/com/octolytics/octopulse/octopulsecarriertest/MainActivity.kt:133-160 | the refresh button changes nothing until a check binds it; bound to `refresh` it updates the indicator and runs the lookup or shows the denied card; bound to the permission check it keeps the indicator and runs the lookup or opens the dialog; every branch states the listener, the counter and the dialog afterwards |
| `MainActivity.CheckCarrierPrivilegesTwice` | app/src/main/java/com/octolytics/octopulse/octopulsecarriertest/MainActivity.kt:154-203 | running the lookup twice on an unchanged platform leaves the same cards as running it once |
| `MainActivity.RefreshTwice` | app/src/main/java/com/octolytics/octopulse/octopulsecarriertest/MainActivity.kt:298-317 | refreshing twice on an unchanged platform leaves the same cards and indicator as refreshing once |

## Left out

- Widget construction (`CardView`, `LinearLayout`, `ImageView`, layout parameters, margins, padding) and float styling (text sizes, corner radius, elevation, layout weight): presentation only; a card is a record and its rendering a `CardRendering.CardView` value.
- Concrete colour values (`Color.parseColor`, `Color.GRAY`): replaced by the categories `Gray`, `Green`, `Red`; the fixed black and dark-grey text colours of the title and carrier lines are not modelled.
- The coroutine in `refresh` (hiding the container, the progress bar, the one-second delay): it does not affect the result; `Refresh` models the synchronous tail that follows the delay.
- `registerForActivityResult`, `getSystemService`, `ContextCompat.checkSelfPermission`, `shouldShowRequestPermissionRationale` and the `AlertDialog` builder are platform calls; their answers are the `Platform` input. Both branches on `shouldShowRequestPermissionRationale` show the same dialog, so the model has one branch. Launching the permission request is recorded as a count; its answer arrives through `OnPermissionResult`.
- `Log` calls: logging only.
- The initial values of the permission indicator come from the layout file, which is not part of this model; the `Screen` constructor uses placeholders for them.
- Kotlin's 32-bit `Int` for the phone count and slot index is modelled as an unbounded integer: the only arithmetic is `slotIndex + 1` with `slotIndex` below the phone count, which cannot overflow.
- `MainActivity.Screen.OnPermissionResult` takes the callback's `isGranted` and the platform's permission state as separate inputs, as the source reads both; it does not assume they agree.
