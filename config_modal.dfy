/**
 * The settings dialog of the raffle screen: the form state it keeps while
 * open (`min`, `max`, `confetti`, `error`), the number inputs' fallback to 1,
 * and the save handler's three ordered checks before it hands the triple to
 * the page and closes.
 */
module ConfigModal {
  import JsParseInt

  /** The largest upper bound the dialog accepts. */
  const MaxLimit: int := 9999

  datatype SaveError = MinNotBelowMax | MinBelowOne | MaxAboveLimit

  /** The text shown under the inputs for each refusal. */
  function Message(e: SaveError): (m: string)
    ensures m != ""
  {
    match e
    case MinNotBelowMax => "El n\U{00FA}mero m\U{00ED}nimo debe ser menor que el m\U{00E1}ximo"
    case MinBelowOne => "El n\U{00FA}mero m\U{00ED}nimo debe ser al menos 1"
    case MaxAboveLimit => "El n\U{00FA}mero m\U{00E1}ximo no puede exceder 9999"
  }

  /** Each refusal has its own message, so the text shown tells which check failed first. */
  lemma MessagesDistinct(e: SaveError, e': SaveError)
    ensures e != e' ==> Message(e) != Message(e')
  {
  }

  datatype Settings = Settings(min: int, max: int, confetti: bool)

  datatype Validation = Accepted(settings: Settings) | Rejected(error: SaveError)

  /**
   * The save handler's decision. The checks run in a fixed order, so the
   * first one that fails names the error, and a triple passes exactly when
   * it is a usable range.
   */
  function Validate(min: int, max: int, confetti: bool): (r: Validation)
    ensures r.Accepted? <==> 1 <= min < max <= MaxLimit
    ensures r.Accepted? ==> r.settings == Settings(min, max, confetti)
    ensures r == Rejected(MinNotBelowMax) <==> min >= max
    ensures r == Rejected(MinBelowOne) <==> min < max && min < 1
    ensures r == Rejected(MaxAboveLimit) <==> 1 <= min < max && max > MaxLimit
  {
    if min >= max then Rejected(MinNotBelowMax)
    else if min < 1 then Rejected(MinBelowOne)
    else if max > MaxLimit then Rejected(MaxAboveLimit)
    else Accepted(Settings(min, max, confetti))
  }

  /** What a number input stores: `Number.parseInt(text) || 1`, so NaN and 0 become 1. */
  function FieldValue(text: string): (v: int)
    ensures v != 0
    ensures v == 1 || JsParseInt.ParseInt(text) == JsParseInt.Int(v)
    ensures JsParseInt.ParseInt(text).Int? && JsParseInt.ParseInt(text).value != 0 ==> v == JsParseInt.ParseInt(text).value
    ensures JsParseInt.ParseInt(text) in {JsParseInt.NaN, JsParseInt.Int(0)} ==> v == 1
  {
    var parsed := JsParseInt.ParseInt(text);
    if parsed.Int? && parsed.value != 0 then parsed.value else 1
  }

  /** Typing the numeral of a non-zero integer stores that integer; typing 0 stores 1. */
  lemma {:induction false} FieldValueOfNumeral(n: int)
    ensures FieldValue(JsParseInt.Numeral(n)) == if n == 0 then 1 else n
  {
    assert JsParseInt.Numeral(n) + [] == JsParseInt.Numeral(n);
    JsParseInt.ParseIntNumeral(n, []);
  }

  /** A callback the dialog invokes on its parent. */
  datatype Callback = OnSave(min: int, max: int, confetti: bool) | OnClose

  class ConfigForm {
    var min: int
    var max: int
    var confetti: bool
    var error: string

    /** The form's state on first render: the props it was given and no error. */
    constructor (minNumber: int, maxNumber: int, confettiEnabled: bool)
      ensures min == minNumber && max == maxNumber && confetti == confettiEnabled && error == ""
    {
      min, max, confetti, error := minNumber, maxNumber, confettiEnabled, "";
    }

    /**
     * The effect that runs whenever `isOpen` or one of the three props
     * changes: while the dialog is open it copies the props into the form
     * and clears the error; while closed it does nothing.
     */
    method SyncWithProps(isOpen: bool, minNumber: int, maxNumber: int, confettiEnabled: bool)
      modifies this
      ensures isOpen ==> min == minNumber && max == maxNumber && confetti == confettiEnabled && error == ""
      ensures !isOpen ==> unchanged(this)
    {
      if isOpen {
        min := minNumber;
        max := maxNumber;
        confetti := confettiEnabled;
        error := "";
      }
    }

    method ChangeMin(text: string)
      modifies this`min
      ensures min == FieldValue(text)
    {
      min := FieldValue(text);
    }

    method ChangeMax(text: string)
      modifies this`max
      ensures max == FieldValue(text)
    {
      max := FieldValue(text);
    }

    method ChangeConfetti(checked: bool)
      modifies this`confetti
      ensures confetti == checked
    {
      confetti := checked;
    }

    /**
     * The save button. A refused triple sets the error and calls nothing; an
     * accepted one is passed unchanged to `onSave`, then `onClose` runs. The
     * form values are never touched, and a success leaves an earlier error
     * message in place.
     */
    method HandleSave() returns (calls: seq<Callback>)
      modifies this`error
      ensures Validate(min, max, confetti).Rejected? ==>
                calls == [] && error == Message(Validate(min, max, confetti).error)
      ensures Validate(min, max, confetti).Accepted? ==>
                calls == [OnSave(min, max, confetti), OnClose] && error == old(error)
    {
      if min >= max {
        error := Message(MinNotBelowMax);
        return [];
      }
      if min < 1 {
        error := Message(MinBelowOne);
        return [];
      }
      if max > MaxLimit {
        error := Message(MaxAboveLimit);
        return [];
      }
      calls := [OnSave(min, max, confetti), OnClose];
    }
  }
}
