/**
 * The screen and its permission dispatch. The platform (the phone-state
 * permission, the subscription service and the telephony service) is a
 * `Platform` value passed to every entry point; the screen is a class
 * whose fields are the parts of the view the activity changes: the list
 * of cards in the slot container, the permission indicator, the action
 * bound to the refresh button and the rationale dialog.
 */
module MainActivity {
  import opened Wrappers
  import opened SlotStatus
  import opened CardRendering

  const OperatorName := "Telefónica"

  /** What the platform answers while the screen runs. */
  datatype Platform = Platform(
    permissionGranted: bool,
    enumeration: Enumeration,
    telephony: Option<Telephony>)

  /** What a tap on the refresh button does. */
  datatype RefreshAction = Unbound | RunsRefresh | RunsPermissionCheck

  /** The permission indicator: label text, icon, colour, and whether the request button shows. */
  datatype PermissionView = PermissionView(statusText: string, icon: Icon, colour: Colour, buttonVisible: bool)

  /**
   * The indicator for a permission state: green check without button, or red
   * cross with button. `UpdatePermissionStatusUI` is proved to set exactly this.
   */
  function PermissionIndicator(granted: bool): (v: PermissionView)
    ensures v.buttonVisible <==> !granted
    ensures v.colour == Green <==> granted
    ensures v.colour == Red <==> !granted
    ensures v.icon == Check <==> granted
    ensures v.statusText == (if granted then "Concedido" else "No concedido")
  {
    if granted then PermissionView("Concedido", Check, Green, false)
    else PermissionView("No concedido", Close, Red, true)
  }

  class Screen {
    var operatorName: string
    /** The cards in the slot container, top to bottom. */
    var container: seq<Card>
    var permissionLabel: string
    var permissionIcon: Icon
    var permissionColour: Colour
    var permissionButtonVisible: bool
    var refreshAction: RefreshAction
    var rationaleShown: bool
    /** How many times the permission request has been launched. */
    var permissionRequests: nat
    /**
     * How many times the lookup has tried to enumerate the active subscriptions,
     * whether or not a subscription service was there to answer.
     */
    ghost var enumerations: nat

    /** Every card on screen keeps the card record invariant. */
    ghost predicate Valid()
      reads this
    {
      forall c :: c in container ==> WellFormed(c)
    }

    function PermissionUI(): PermissionView
      reads this
    {
      PermissionView(permissionLabel, permissionIcon, permissionColour, permissionButtonVisible)
    }

    /** The screen before the activity touches it; indicator values are placeholders. */
    constructor ()
      ensures Valid()
      ensures container == [] && refreshAction == Unbound && !rationaleShown
      ensures permissionRequests == 0 && enumerations == 0
    {
      operatorName := "";
      container := [];
      permissionLabel := "";
      permissionIcon := Close;
      permissionColour := Gray;
      permissionButtonVisible := true;
      refreshAction := Unbound;
      rationaleShown := false;
      permissionRequests := 0;
      enumerations := 0;
    }

    /** `onCreate`: show the operator name, then check the permission and proceed. */
    method OnCreate(p: Platform)
      requires Valid()
      modifies this`operatorName, this`refreshAction, this`container, this`enumerations, this`rationaleShown
      ensures Valid()
      ensures operatorName == OperatorName
      ensures p.permissionGranted ==> (container == LookupCards(p.enumeration, p.telephony)
                                      && refreshAction == RunsRefresh && enumerations == old(enumerations) + 1
                                      && rationaleShown == old(rationaleShown))
      ensures !p.permissionGranted ==> (rationaleShown && container == old(container)
                                       && refreshAction == old(refreshAction)
                                       && enumerations == old(enumerations))
    {
      operatorName := OperatorName;
      CheckPermissionAndProceed(p);
    }

    /** `updatePermissionStatusUI`: the indicator follows the current permission state. */
    method UpdatePermissionStatusUI(p: Platform)
      modifies this`permissionLabel, this`permissionIcon, this`permissionColour, this`permissionButtonVisible
      ensures PermissionUI() == PermissionIndicator(p.permissionGranted)
    {
      if p.permissionGranted {
        permissionIcon := Check;
        permissionColour := Green;
        permissionLabel := "Concedido";
        permissionButtonVisible := false;
      } else {
        permissionIcon := Close;
        permissionColour := Red;
        permissionLabel := "No concedido";
        permissionButtonVisible := true;
      }
    }

    /** `showPermissionDeniedState`: refresh re-checks the permission; the container holds the denied card only. */
    method ShowPermissionDeniedState()
      modifies this`refreshAction, this`container
      ensures Valid()
      ensures refreshAction == RunsPermissionCheck
      ensures container == [PermissionDeniedCard()]
    {
      refreshAction := RunsPermissionCheck;
      container := [];
      container := container + [PermissionDeniedCard()];
    }

    /**
     * `checkCarrierPrivileges`: refresh now refreshes; the container is
     * cleared and then holds exactly the cards of the lookup.
     */
    method CheckCarrierPrivileges(p: Platform)
      modifies this`refreshAction, this`container, this`enumerations
      ensures Valid()
      ensures refreshAction == RunsRefresh
      ensures container == LookupCards(p.enumeration, p.telephony)
      ensures enumerations == old(enumerations) + 1
    {
      refreshAction := RunsRefresh;
      container := [];

      enumerations := enumerations + 1;
      var activeSubscriptions := ActiveSubscriptions(p.enumeration);
      var slotCount := SlotCount(p.telephony);

      if activeSubscriptions == [] {
        container := container + [NoSimsCard()];
        AllProducedCardsWellFormed(p.enumeration, p.telephony);
        return;
      }

      var slotIndex := 0;
      while slotIndex < slotCount
        invariant 0 <= slotIndex <= (if slotCount <= 0 then 0 else slotCount)
        invariant container == SlotCards(activeSubscriptions, p.telephony, slotIndex)
        invariant refreshAction == RunsRefresh && enumerations == old(enumerations) + 1
      {
        var subscriptionInfo := FindBySlot(activeSubscriptions, slotIndex);
        if subscriptionInfo.Some? {
          var s := subscriptionInfo.value;
          var displayName := s.displayName.GetOr(UnknownSimTitle);
          var carrierName := s.carrierName.GetOr("");
          var hasPrivileges := false;
          if p.telephony.Some? && s.subscriptionId in p.telephony.value.privileges {
            hasPrivileges := p.telephony.value.privileges[s.subscriptionId];
          }
          container := container + [Card(slotIndex, displayName, Some(carrierName), None, hasPrivileges, false)];
        } else {
          container := container + [EmptySlotCard(slotIndex)];
        }
        slotIndex := slotIndex + 1;
      }
      AllProducedCardsWellFormed(p.enumeration, p.telephony);
    }

    /**
     * `checkPermissionAndProceed`: with the permission the lookup runs;
     * without it the rationale dialog opens and nothing is enumerated.
     */
    method CheckPermissionAndProceed(p: Platform)
      requires Valid()
      modifies this`refreshAction, this`container, this`enumerations, this`rationaleShown
      ensures Valid()
      ensures p.permissionGranted ==> (container == LookupCards(p.enumeration, p.telephony)
                                      && refreshAction == RunsRefresh && enumerations == old(enumerations) + 1
                                      && rationaleShown == old(rationaleShown))
      ensures !p.permissionGranted ==> (rationaleShown && container == old(container)
                                       && refreshAction == old(refreshAction)
                                       && enumerations == old(enumerations))
    {
      if p.permissionGranted {
        CheckCarrierPrivileges(p);
      } else {
        ShowPermissionRationaleDialog();
      }
    }

    method ShowPermissionRationaleDialog()
      modifies this`rationaleShown
      ensures rationaleShown
    {
      rationaleShown := true;
    }

    /** The rationale dialog's confirm button: the dialog closes and the permission request is launched. */
    method RationaleConfirmed()
      modifies this`rationaleShown, this`permissionRequests
      ensures !rationaleShown && permissionRequests == old(permissionRequests) + 1
    {
      rationaleShown := false;
      permissionRequests := permissionRequests + 1;
    }

    /** The rationale dialog's cancel button: the dialog closes and the denied state shows. */
    method RationaleCancelled()
      modifies this`rationaleShown, this`refreshAction, this`container
      ensures Valid()
      ensures !rationaleShown
      ensures container == [PermissionDeniedCard()] && refreshAction == RunsPermissionCheck
    {
      rationaleShown := false;
      ShowPermissionDeniedState();
    }

    /** The permission button's listener: launches the permission request. */
    method RequestPermissionClicked()
      modifies this`permissionRequests
      ensures permissionRequests == old(permissionRequests) + 1
    {
      permissionRequests := permissionRequests + 1;
    }

    /**
     * The permission request's result callback: the indicator is updated,
     * then a grant runs the lookup and a refusal shows the denied state
     * without asking for subscriptions.
     */
    method OnPermissionResult(isGranted: bool, p: Platform)
      modifies this`permissionLabel, this`permissionIcon, this`permissionColour, this`permissionButtonVisible
      modifies this`refreshAction, this`container, this`enumerations
      ensures Valid()
      ensures PermissionUI() == PermissionIndicator(p.permissionGranted)
      ensures isGranted ==> (container == LookupCards(p.enumeration, p.telephony)
                             && refreshAction == RunsRefresh && enumerations == old(enumerations) + 1)
      ensures !isGranted ==> (container == [PermissionDeniedCard()] && refreshAction == RunsPermissionCheck
                              && enumerations == old(enumerations))
    {
      UpdatePermissionStatusUI(p);
      if isGranted {
        CheckCarrierPrivileges(p);
      } else {
        ShowPermissionDeniedState();
      }
    }

    /** `onResume`: the indicator is updated and, with the permission, the lookup runs; otherwise the cards stay. */
    method OnResume(p: Platform)
      requires Valid()
      modifies this`permissionLabel, this`permissionIcon, this`permissionColour, this`permissionButtonVisible
      modifies this`refreshAction, this`container, this`enumerations
      ensures Valid()
      ensures PermissionUI() == PermissionIndicator(p.permissionGranted)
      ensures p.permissionGranted ==> (container == LookupCards(p.enumeration, p.telephony)
                                      && refreshAction == RunsRefresh && enumerations == old(enumerations) + 1)
      ensures !p.permissionGranted ==> (container == old(container) && refreshAction == old(refreshAction)
                                       && enumerations == old(enumerations))
    {
      UpdatePermissionStatusUI(p);
      if p.permissionGranted {
        CheckCarrierPrivileges(p);
      }
    }

    /**
     * `refresh`, after its loading delay: the indicator is updated, then
     * the lookup runs with the permission and the denied state shows without it.
     */
    method Refresh(p: Platform)
      modifies this`permissionLabel, this`permissionIcon, this`permissionColour, this`permissionButtonVisible
      modifies this`refreshAction, this`container, this`enumerations
      ensures Valid()
      ensures PermissionUI() == PermissionIndicator(p.permissionGranted)
      ensures p.permissionGranted ==> (container == LookupCards(p.enumeration, p.telephony)
                                      && refreshAction == RunsRefresh && enumerations == old(enumerations) + 1)
      ensures !p.permissionGranted ==> (container == [PermissionDeniedCard()]
                                       && refreshAction == RunsPermissionCheck
                                       && enumerations == old(enumerations))
    {
      UpdatePermissionStatusUI(p);
      if p.permissionGranted {
        CheckCarrierPrivileges(p);
      } else {
        ShowPermissionDeniedState();
      }
    }

    /**
     * A tap on the refresh button runs whatever listener the last check
     * bound to it: nothing before any check, `refresh` after a lookup, and
     * the permission check after the denied state.
     */
    method RefreshClicked(p: Platform)
      requires Valid()
      modifies this`permissionLabel, this`permissionIcon, this`permissionColour, this`permissionButtonVisible
      modifies this`refreshAction, this`container, this`enumerations, this`rationaleShown
      ensures Valid()
      ensures old(refreshAction) == Unbound ==>
                (container == old(container) && enumerations == old(enumerations)
                 && refreshAction == Unbound && rationaleShown == old(rationaleShown)
                 && PermissionUI() == old(PermissionUI()))
      ensures old(refreshAction) == RunsRefresh ==>
                (PermissionUI() == PermissionIndicator(p.permissionGranted)
                 && rationaleShown == old(rationaleShown))
      ensures old(refreshAction) == RunsRefresh && p.permissionGranted ==>
                (container == LookupCards(p.enumeration, p.telephony) && refreshAction == RunsRefresh
                 && enumerations == old(enumerations) + 1)
      ensures old(refreshAction) == RunsRefresh && !p.permissionGranted ==>
                (container == [PermissionDeniedCard()] && refreshAction == RunsPermissionCheck
                 && enumerations == old(enumerations))
      ensures old(refreshAction) == RunsPermissionCheck ==> PermissionUI() == old(PermissionUI())
      ensures old(refreshAction) == RunsPermissionCheck && p.permissionGranted ==>
                (container == LookupCards(p.enumeration, p.telephony) && refreshAction == RunsRefresh
                 && enumerations == old(enumerations) + 1 && rationaleShown == old(rationaleShown))
      ensures old(refreshAction) == RunsPermissionCheck && !p.permissionGranted ==>
                (rationaleShown && container == old(container) && refreshAction == RunsPermissionCheck
                 && enumerations == old(enumerations))
    {
      match refreshAction
      case Unbound =>
      case RunsRefresh => Refresh(p);
      case RunsPermissionCheck => CheckPermissionAndProceed(p);
    }
  }

  /** Running the lookup twice on an unchanged platform leaves the same cards as running it once. */
  method CheckCarrierPrivilegesTwice(s: Screen, p: Platform) returns (first: seq<Card>)
    modifies s
    ensures first == LookupCards(p.enumeration, p.telephony)
    ensures s.container == first
  {
    s.CheckCarrierPrivileges(p);
    first := s.container;
    s.CheckCarrierPrivileges(p);
  }

  /** Refreshing twice on an unchanged platform leaves the same screen as refreshing once. */
  method RefreshTwice(s: Screen, p: Platform) returns (first: seq<Card>, firstUI: PermissionView)
    modifies s
    ensures s.container == first && s.PermissionUI() == firstUI
    ensures first == (if p.permissionGranted then LookupCards(p.enumeration, p.telephony)
                      else [PermissionDeniedCard()])
  {
    s.Refresh(p);
    first, firstUI := s.container, s.PermissionUI();
    s.Refresh(p);
  }
}
