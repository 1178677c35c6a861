/**
 * The data behind the status cards: the SIM subscriptions the platform
 * reports, the telephony service, the card record, and the pure mapping
 * from the platform's answers to the ordered list of cards that
 * `checkCarrierPrivileges` puts on screen.
 */
module SlotStatus {
  import opened Wrappers

  /** One active SIM subscription, as the subscription service reports it. */
  datatype Subscription = Subscription(
    subscriptionId: int,
    simSlotIndex: int,
    displayName: Option<string>,
    carrierName: Option<string>)

  /** What asking the subscription service for the active subscriptions gives. */
  datatype Enumeration =
    | NoService                      // the subscription service is absent
    | NoList                         // the service answers with no list at all
    | Listed(subs: seq<Subscription>)
    | SecurityDenied                 // the query throws a security exception

  /**
   * The telephony service: its number of SIM slots, and for each
   * subscription id the answer of the per-subscription manager to
   * "does this app hold carrier privileges?". An id missing from
   * `privileges` is one for which no per-subscription manager exists.
   */
  datatype Telephony = Telephony(phoneCount: int, privileges: map<int, bool>)

  /**
   * One status card. `slotIndex` is -1 on the cards that stand for no
   * slot at all ("Sin SIMs", "Permiso denegado").
   */
  datatype Card = Card(
    slotIndex: int,
    title: string,
    carrierName: Option<string>,
    subtitle: Option<string>,
    hasPrivileges: bool,
    isEmpty: bool)

  const UnknownSimTitle := "SIM desconocida"

  /** The card shown when there is no active subscription at all. */
  function NoSimsCard(): Card {
    Card(-1, "Sin SIMs", None, Some("No hay tarjetas SIM insertadas"), false, true)
  }

  /** The card shown for a slot no subscription occupies. */
  function EmptySlotCard(slot: int): Card {
    Card(slot, "Vacío", None, Some("Sin SIM insertada"), false, true)
  }

  /** The card shown instead of the slots while the phone-state permission is missing. */
  function PermissionDeniedCard(): Card {
    Card(-1, "Permiso denegado", None,
         Some("No se puede acceder a la información de las SIMs sin el permiso requerido"),
         false, true)
  }

  /**
   * The subscriptions the lookup works with: a missing service, a missing
   * list and a security exception all count as "no subscriptions".
   */
  function ActiveSubscriptions(e: Enumeration): (subs: seq<Subscription>)
    ensures subs != [] ==> e.Listed? && subs == e.subs
    ensures e.Listed? ==> subs == e.subs
  {
    match e
    case Listed(subs) => subs
    case _ => []
  }

  /** The number of slots to show: the phone count, or 2 without a telephony service. */
  function SlotCount(t: Option<Telephony>): (n: int)
    ensures t.None? ==> n == 2
    ensures t.Some? ==> n == t.value.phoneCount
  {
    match t
    case Some(tm) => tm.phoneCount
    case None => 2
  }

  /** Whether the per-subscription manager for `subscriptionId` exists and reports privileges. */
  function HasPrivileges(t: Option<Telephony>, subscriptionId: int): (r: bool)
    ensures t.None? ==> !r
    ensures r ==> subscriptionId in t.value.privileges && t.value.privileges[subscriptionId]
  {
    match t
    case None => false
    case Some(tm) => subscriptionId in tm.privileges && tm.privileges[subscriptionId]
  }

  predicate OnSlot(s: Subscription, slot: int) {
    s.simSlotIndex == slot
  }

  /** Kotlin's `find`: the first subscription in list order that sits in `slot`. */
  function FindBySlot(subs: seq<Subscription>, slot: int): (r: Option<Subscription>)
    ensures r.None? <==> forall i :: 0 <= i < |subs| ==> !OnSlot(subs[i], slot)
    ensures r.Some? ==> exists i :: 0 <= i < |subs| && subs[i] == r.value && OnSlot(subs[i], slot)
                                    && forall j :: 0 <= j < i ==> !OnSlot(subs[j], slot)
  {
    if subs == [] then None
    else if OnSlot(subs[0], slot) then Some(subs[0])
    else
      var r := FindBySlot(subs[1..], slot);
      assert forall i :: 1 <= i < |subs| ==> subs[i] == subs[1..][i - 1];
      r
  }

  /** The card of an occupied slot. */
  function SubscriptionCard(slot: int, s: Subscription, t: Option<Telephony>): (c: Card)
    ensures c.slotIndex == slot && !c.isEmpty && c.subtitle.None?
    ensures s.displayName.Some? ==> c.title == s.displayName.value
    ensures s.displayName.None? ==> c.title == UnknownSimTitle
    ensures c.carrierName.Some? && (s.carrierName.None? ==> c.carrierName.value == "")
    ensures s.carrierName.Some? ==> c.carrierName == s.carrierName
  {
    Card(slot, s.displayName.GetOr(UnknownSimTitle), Some(s.carrierName.GetOr("")), None,
         HasPrivileges(t, s.subscriptionId), false)
  }

  /** The card of one slot: its first subscription's card, or the empty-slot card. */
  function SlotCard(subs: seq<Subscription>, t: Option<Telephony>, slot: int): (c: Card)
    ensures c.slotIndex == slot
    ensures c.isEmpty <==> forall i :: 0 <= i < |subs| ==> !OnSlot(subs[i], slot)
    ensures c.isEmpty ==> c == EmptySlotCard(slot)
    ensures !c.isEmpty ==> exists i :: 0 <= i < |subs| && OnSlot(subs[i], slot)
                                       && (forall j :: 0 <= j < i ==> !OnSlot(subs[j], slot))
                                       && c == SubscriptionCard(slot, subs[i], t)
  {
    match FindBySlot(subs, slot)
    case Some(s) => SubscriptionCard(slot, s, t)
    case None => EmptySlotCard(slot)
  }

  /** The cards of slots `0 until n`, in slot order (none when n <= 0). */
  function SlotCards(subs: seq<Subscription>, t: Option<Telephony>, n: int): (cards: seq<Card>)
    decreases n
    ensures |cards| == if n <= 0 then 0 else n
    ensures forall i :: 0 <= i < |cards| ==> cards[i] == SlotCard(subs, t, i)
  {
    if n <= 0 then [] else SlotCards(subs, t, n - 1) + [SlotCard(subs, t, n - 1)]
  }

  /** The whole screen content `checkCarrierPrivileges` leaves behind. */
  function LookupCards(e: Enumeration, t: Option<Telephony>): (cards: seq<Card>)
    ensures ActiveSubscriptions(e) == [] ==> cards == [NoSimsCard()]
    ensures ActiveSubscriptions(e) != [] ==>
              |cards| == (if SlotCount(t) <= 0 then 0 else SlotCount(t))
              && forall i :: 0 <= i < |cards| ==> cards[i] == SlotCard(ActiveSubscriptions(e), t, i)
  {
    var subs := ActiveSubscriptions(e);
    if subs == [] then [NoSimsCard()] else SlotCards(subs, t, SlotCount(t))
  }

  /** The record invariant every card producer keeps. */
  predicate WellFormed(c: Card) {
    && (c.isEmpty ==> !c.hasPrivileges && c.subtitle.Some? && c.carrierName.None?)
    && (!c.isEmpty ==> c.subtitle.None? && c.carrierName.Some? && c.slotIndex >= 0)
  }

  /** A failing or absent subscription service reads exactly like an empty list. */
  lemma EnumerationFailuresReadAsEmpty(t: Option<Telephony>)
    ensures LookupCards(SecurityDenied, t) == LookupCards(Listed([]), t)
    ensures LookupCards(NoService, t) == LookupCards(Listed([]), t)
    ensures LookupCards(NoList, t) == LookupCards(Listed([]), t)
    ensures LookupCards(Listed([]), t) == [NoSimsCard()]
  {
  }

  /** With subscriptions, card i is the card of slot i: slot indices are unique and in range. */
  lemma LookupSlotIndices(e: Enumeration, t: Option<Telephony>)
    requires ActiveSubscriptions(e) != []
    ensures forall i :: 0 <= i < |LookupCards(e, t)| ==> LookupCards(e, t)[i].slotIndex == i
    ensures forall c :: c in LookupCards(e, t) ==> 0 <= c.slotIndex < SlotCount(t)
    ensures forall i, j :: 0 <= i < j < |LookupCards(e, t)| ==>
              LookupCards(e, t)[i].slotIndex != LookupCards(e, t)[j].slotIndex
  {
    var cards := LookupCards(e, t);
    forall c | c in cards ensures 0 <= c.slotIndex < SlotCount(t) {
      var i :| 0 <= i < |cards| && cards[i] == c;
    }
  }

  /** A subscription whose slot index lies outside `[0, slotCount)` gets no card. */
  lemma OutOfRangeSubscriptionHasNoCard(e: Enumeration, t: Option<Telephony>, s: Subscription)
    requires s in ActiveSubscriptions(e)
    requires s.simSlotIndex < 0 || s.simSlotIndex >= SlotCount(t)
    ensures forall c :: c in LookupCards(e, t) ==> c.slotIndex != s.simSlotIndex
  {
    LookupSlotIndices(e, t);
  }

  /**
   * Every occupied-slot card shows the first subscription of its slot:
   * its display name (or "SIM desconocida"), its carrier name (or ""),
   * no subtitle, and privileges exactly when the telephony service exists
   * and the per-subscription manager for its id exists and reports them.
   */
  lemma OccupiedCardShowsFirstMatch(e: Enumeration, t: Option<Telephony>, k: int)
    requires 0 <= k < |LookupCards(e, t)|
    requires !LookupCards(e, t)[k].isEmpty
    ensures var subs, c := ActiveSubscriptions(e), LookupCards(e, t)[k];
            exists i :: 0 <= i < |subs| && subs[i].simSlotIndex == k
                        && (forall j :: 0 <= j < i ==> subs[j].simSlotIndex != k)
                        && c.title == subs[i].displayName.GetOr(UnknownSimTitle)
                        && c.carrierName == Some(subs[i].carrierName.GetOr(""))
                        && c.subtitle.None?
                        && (c.hasPrivileges <==> t.Some? && subs[i].subscriptionId in t.value.privileges
                                                 && t.value.privileges[subs[i].subscriptionId])
  {
    var subs := ActiveSubscriptions(e);
    assert subs != [];
    var c := SlotCard(subs, t, k);
    assert LookupCards(e, t)[k] == c;
    var i :| 0 <= i < |subs| && OnSlot(subs[i], k)
             && (forall j :: 0 <= j < i ==> !OnSlot(subs[j], k))
             && c == SubscriptionCard(k, subs[i], t);
  }

  /** A slot no subscription occupies shows the "Vacío" card. */
  lemma UnoccupiedSlotShowsEmptyCard(e: Enumeration, t: Option<Telephony>, k: int)
    requires ActiveSubscriptions(e) != []
    requires 0 <= k < SlotCount(t)
    requires forall s :: s in ActiveSubscriptions(e) ==> s.simSlotIndex != k
    ensures k < |LookupCards(e, t)|
    ensures LookupCards(e, t)[k] == EmptySlotCard(k)
    ensures LookupCards(e, t)[k].title == "Vacío" && LookupCards(e, t)[k].subtitle == Some("Sin SIM insertada")
    ensures LookupCards(e, t)[k].isEmpty && !LookupCards(e, t)[k].hasPrivileges
  {
    var subs := ActiveSubscriptions(e);
    assert forall i :: 0 <= i < |subs| ==> !OnSlot(subs[i], k) by {
      forall i | 0 <= i < |subs| ensures !OnSlot(subs[i], k) {
        assert subs[i] in subs;
      }
    }
  }

  /** Every card any producer emits keeps the record invariant; in particular empty cards never claim privileges. */
  lemma AllProducedCardsWellFormed(e: Enumeration, t: Option<Telephony>)
    ensures WellFormed(PermissionDeniedCard())
    ensures forall c :: c in LookupCards(e, t) ==> WellFormed(c)
    ensures forall c :: c in LookupCards(e, t) + [PermissionDeniedCard()] ==> (c.isEmpty ==> !c.hasPrivileges)
  {
    var cards := LookupCards(e, t);
    forall c | c in cards ensures WellFormed(c) {
      var i :| 0 <= i < |cards| && cards[i] == c;
    }
  }
}
