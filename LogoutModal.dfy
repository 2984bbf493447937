/**
 * The logout confirmation dialog: the user must type the phrase
 * "로그아웃 하겠습니다"; confirming compares the trimmed input with it and
 * either logs out or shows an error alert, and cancelling only closes
 * the dialog. The callbacks and the alert are recorded as effects.
 */
module LogoutModal {
  import opened JsText

  const LOGOUT_PHRASE: string := "로그아웃 하겠습니다"
  const ERROR_TITLE: string := "오류"
  const ERROR_MESSAGE: string := "정확한 문구를 입력해주세요."

  /** What a button press causes outside the dialog. */
  datatype Effect =
    | CallOnLogout
    | ShowErrorAlert(title: string, message: string)
    | CallOnClose

  datatype Button = Confirm | Cancel

  /** The dialog's one state variable. */
  datatype Dialog = Dialog(inputText: string)

  function Initial(): Dialog {
    Dialog("")
  }

  /** onChangeText: the text field replaces the input. */
  function ChangeText(d: Dialog, text: string): Dialog {
    Dialog(text)
  }

  /** handleLogout */
  function HandleLogout(inputText: string): Effect {
    if Trim(inputText) == LOGOUT_PHRASE then CallOnLogout
    else ShowErrorAlert(ERROR_TITLE, ERROR_MESSAGE)
  }

  /** A press of either button: the dialog after it and the effects, in order. */
  function Press(d: Dialog, b: Button): (Dialog, seq<Effect>) {
    match b
    case Confirm => (d, [HandleLogout(d.inputText)])
    case Cancel => (d, [CallOnClose])
  }

  /** Logout happens exactly when the trimmed input is the phrase; otherwise the fixed alert is shown. */
  lemma LogoutIffTrimmedMatch(inputText: string)
    ensures HandleLogout(inputText) == CallOnLogout <==> Trim(inputText) == LOGOUT_PHRASE
    ensures HandleLogout(inputText) != CallOnLogout ==>
      HandleLogout(inputText) == ShowErrorAlert("오류", "정확한 문구를 입력해주세요.")
  {
  }

  /** The phrase has no white space at either end, so trimming keeps it. */
  lemma PhraseIsTrimmed()
    ensures Trim(LOGOUT_PHRASE) == LOGOUT_PHRASE
  {
    var p := LOGOUT_PHRASE;
    assert p[0] == '로' && p[|p| - 1] == '다';
    assert TrimStart(p) == p;
    assert TrimEnd(p) == p;
  }

  /** White space typed before or after the phrase is ignored. */
  lemma SurroundingWhiteSpaceIgnored(before: string, after: string)
    requires AllWhiteSpace(before) && AllWhiteSpace(after)
    ensures HandleLogout(before + LOGOUT_PHRASE + after) == CallOnLogout
  {
    TrimIgnoresSurroundingWhiteSpace(before, LOGOUT_PHRASE, after);
    PhraseIsTrimmed();
  }

  /** A difference inside the phrase is not forgiven: a doubled or missing space is rejected. */
  lemma InternalSpacingRejected()
    ensures HandleLogout("로그아웃  하겠습니다").ShowErrorAlert?
    ensures HandleLogout("로그아웃하겠습니다").ShowErrorAlert?
  {
    var doubled := "로그아웃  하겠습니다";
    var joined := "로그아웃하겠습니다";
    assert TrimStart(doubled) == doubled && TrimEnd(doubled) == doubled;
    assert TrimStart(joined) == joined && TrimEnd(joined) == joined;
  }

  /**
   * Each confirm press has exactly one effect, logout or the alert; neither
   * press changes the input; cancel only closes.
   */
  lemma PressOutcomes(d: Dialog, b: Button)
    ensures Press(d, b).0 == d
    ensures |Press(d, b).1| == 1
    ensures b == Confirm ==> (Press(d, b).1[0] == CallOnLogout || Press(d, b).1[0].ShowErrorAlert?)
    ensures b == Confirm ==> (Press(d, b).1[0] == CallOnLogout <==> Trim(d.inputText) == LOGOUT_PHRASE)
    ensures b == Cancel ==> Press(d, b).1 == [CallOnClose]
  {
  }

  /** Typing the phrase into a fresh dialog, with any surrounding blanks, and confirming logs out. */
  lemma TypedPhraseLogsOut(before: string, after: string)
    requires AllWhiteSpace(before) && AllWhiteSpace(after)
    ensures Press(ChangeText(Initial(), before + LOGOUT_PHRASE + after), Confirm).1 == [CallOnLogout]
  {
    SurroundingWhiteSpaceIgnored(before, after);
  }
}
