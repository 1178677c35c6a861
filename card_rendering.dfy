/**
 * The decisions `createSlotCard` makes when it turns a card record into
 * a card on screen: the title line, whether the carrier line shows, the
 * status line, and the icon and its colour. Widget construction, sizes
 * and concrete colour values are not modelled; colours are categories.
 */
module CardRendering {
  import opened Wrappers
  import opened Decimal
  import opened SlotStatus

  /** The three colours a card's icon and status line can take. */
  datatype Colour = Gray | Green | Red

  /** The two icons a card can show: a check mark or a cross. */
  datatype Icon = Check | Close

  const PrivilegedMessage := "✓ Tiene privilegios de operador"
  const NotPrivilegedMessage := "✗ No tiene privilegios de operador"

  /** Everything the screen shows of one card. */
  datatype CardView = CardView(
    titleText: string,
    carrierText: string,
    carrierVisible: bool,
    statusText: string,
    icon: Icon,
    iconColour: Colour,
    statusColour: Colour)

  /** "Slot k+1" for a slot index k, and nothing for the cards that stand for no slot. */
  function SlotLabel(slotIndex: int): (prefix: string)
    ensures slotIndex >= 0 <==> prefix != ""
  {
    if slotIndex >= 0 then "Slot " + DecimalString(slotIndex + 1) else ""
  }

  /** The title line: the label, a colon and the title when there is a label; the bare title otherwise. */
  function TitleText(c: Card): (text: string)
    ensures c.slotIndex >= 0 ==> text == "Slot " + DecimalString(c.slotIndex + 1) + ": " + c.title
    ensures c.slotIndex < 0 ==> text == c.title
  {
    var slotLabel := SlotLabel(c.slotIndex);
    if |slotLabel| > 0 then slotLabel + ": " + c.title else c.title
  }

  /** The carrier line's text: the carrier name, or "" when there is none. */
  function CarrierText(c: Card): (text: string)
    ensures c.carrierName.None? ==> text == ""
    ensures c.carrierName.Some? ==> text == c.carrierName.value
  {
    c.carrierName.GetOr("")
  }

  /** The carrier line shows exactly when there is a carrier name and it is not empty. */
  function CarrierVisible(c: Card): (visible: bool)
    ensures visible <==> c.carrierName.Some? && c.carrierName.value != ""
    ensures visible ==> CarrierText(c) == c.carrierName.value
  {
    !(c.carrierName.None? || |c.carrierName.value| == 0)
  }

  /**
   * The status line: the subtitle takes precedence over the privilege message.
   * How this decision and the colour below combine on the cards the screen
   * actually produces is stated by `WellFormedCardRendering`.
   */
  function StatusText(c: Card): (text: string)
    ensures c.subtitle.Some? ==> text == c.subtitle.value
    ensures c.subtitle.None? ==> (text == PrivilegedMessage <==> c.hasPrivileges)
    ensures c.subtitle.None? ==> (text == NotPrivilegedMessage <==> !c.hasPrivileges)
  {
    if c.subtitle.Some? then c.subtitle.value
    else if c.hasPrivileges then PrivilegedMessage
    else NotPrivilegedMessage
  }

  /**
   * The colour of both the icon and the status line: emptiness wins over
   * privileges. See `CardIcon` and `WellFormedCardRendering` for how it lines
   * up with the icon and the status text.
   */
  function CardColour(c: Card): (colour: Colour)
    ensures colour == Gray <==> c.isEmpty
    ensures colour == Green <==> !c.isEmpty && c.hasPrivileges
    ensures colour == Red <==> !c.isEmpty && !c.hasPrivileges
  {
    if c.isEmpty then Gray
    else if c.hasPrivileges then Green
    else Red
  }

  /** The icon: a check mark only on a non-empty card with privileges. */
  function CardIcon(c: Card): (icon: Icon)
    ensures icon == Check <==> CardColour(c) == Green
  {
    if c.isEmpty then Close
    else if c.hasPrivileges then Check
    else Close
  }

  /** The whole card on screen; icon and status line always share one colour. */
  function Render(c: Card): (v: CardView)
    ensures v.iconColour == v.statusColour
    ensures v.icon == Check <==> v.statusColour == Green
    ensures v.carrierVisible ==> v.carrierText != ""
  {
    CardView(TitleText(c), CarrierText(c), CarrierVisible(c), StatusText(c),
             CardIcon(c), CardColour(c), CardColour(c))
  }

  /**
   * The label in front of a slot card's title names the slot one-based:
   * reading back the digits after "Slot " gives slotIndex + 1.
   */
  lemma SlotLabelNamesSlot(c: Card)
    requires c.slotIndex >= 0
    ensures exists digits :: AllDigits(digits) && ParseDecimal(digits) == c.slotIndex + 1
                             && TitleText(c) == "Slot " + digits + ": " + c.title
  {
    ParseDecimalOfDecimal(c.slotIndex + 1);
    var digits := DecimalString(c.slotIndex + 1);
    assert TitleText(c) == "Slot " + digits + ": " + c.title;
  }

  /**
   * On a well-formed card the status line and its colour agree: grey with
   * the subtitle on empty cards, green with the privileged message and red
   * with the other one on occupied cards. The carrier line of an empty card
   * never shows.
   */
  lemma WellFormedCardRendering(c: Card)
    requires WellFormed(c)
    ensures c.isEmpty ==> Render(c).statusText == c.subtitle.value && Render(c).statusColour == Gray
                          && Render(c).icon == Close && !Render(c).carrierVisible
    ensures !c.isEmpty && c.hasPrivileges ==>
              Render(c).statusText == PrivilegedMessage && Render(c).statusColour == Green
              && Render(c).icon == Check
    ensures !c.isEmpty && !c.hasPrivileges ==>
              Render(c).statusText == NotPrivilegedMessage && Render(c).statusColour == Red
              && Render(c).icon == Close
    ensures !c.isEmpty ==> Render(c).titleText == "Slot " + DecimalString(c.slotIndex + 1) + ": " + c.title
  {
  }

  /**
   * What the lookup shows for an empty slot and for the no-SIM and denied
   * cards: "Slot k+1: Vacío" in grey, and the bare titles "Sin SIMs" and
   * "Permiso denegado" in grey.
   */
  lemma FixedCardsRendering(k: nat)
    ensures Render(EmptySlotCard(k)).titleText == "Slot " + DecimalString(k + 1) + ": Vacío"
    ensures Render(EmptySlotCard(k)).statusText == "Sin SIM insertada"
    ensures Render(NoSimsCard()).titleText == "Sin SIMs"
    ensures Render(NoSimsCard()).statusText == "No hay tarjetas SIM insertadas"
    ensures Render(PermissionDeniedCard()).titleText == "Permiso denegado"
    ensures Render(EmptySlotCard(k)).statusColour == Gray && Render(NoSimsCard()).statusColour == Gray
            && Render(PermissionDeniedCard()).statusColour == Gray
  {
  }
}
