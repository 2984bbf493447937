/**
 * The weekday picker of the Add and Edit medication screens: the
 * selection is an ordered list of day names, the extra "매일" (every day)
 * entry selects or clears all seven, and the hour and minute pickers offer
 * zero-padded two-digit strings.
 */
module DaySelection {
  import opened JsText

  const EVERY_DAY: string := "매일"
  /** The order the "every day" entry fills in, Monday first. */
  const ALL_DAYS: seq<string> := ["월", "화", "수", "목", "금", "토", "일"]

  /** `selected.filter(d => d !== day)` */
  function Without(selected: seq<string>, day: string): (r: seq<string>)
    ensures day !in r
    ensures forall d :: d in r <==> d in selected && d != day
    ensures |r| <= |selected|
  {
    if selected == [] then []
    else (if selected[0] == day then [] else [selected[0]]) + Without(selected[1..], day)
  }

  /** toggleDay of both medication screens, as a function from old selection to new. */
  function ToggleDay(selected: seq<string>, day: string): seq<string> {
    if day == EVERY_DAY then
      if |selected| == 7 then [] else ALL_DAYS
    else if day in selected then Without(selected, day)
    else selected + [day]
  }

  predicate NoDuplicates(s: seq<string>) {
    forall i, j :: 0 <= i < j < |s| ==> s[i] != s[j]
  }

  lemma {:induction false} WithoutAppend(a: seq<string>, b: seq<string>, day: string)
    ensures Without(a + b, day) == Without(a, day) + Without(b, day)
  {
    if a == [] {
      assert a + b == b;
    } else {
      assert (a + b)[1..] == a[1..] + b;
      WithoutAppend(a[1..], b, day);
    }
  }

  lemma {:induction false} WithoutAbsent(s: seq<string>, day: string)
    requires day !in s
    ensures Without(s, day) == s
  {
    if s != [] {
      WithoutAbsent(s[1..], day);
    }
  }

  /** Filtering keeps the others in their order: it is `s` with the day's entries taken out. */
  lemma {:induction false} WithoutKeepsOrder(s: seq<string>, day: string, i: nat)
    requires i < |s| && s[i] != day
    ensures Without(s, day) == Without(s[..i], day) + [s[i]] + Without(s[i + 1..], day)
  {
    assert s == s[..i] + ([s[i]] + s[i + 1..]);
    WithoutAppend(s[..i], [s[i]] + s[i + 1..], day);
    WithoutAppend([s[i]], s[i + 1..], day);
    assert Without([s[i]], day) == [s[i]] by {
      assert [s[i]][1..] == [];
    }
  }

  lemma {:induction false} WithoutKeepsNoDuplicates(s: seq<string>, day: string)
    requires NoDuplicates(s)
    ensures NoDuplicates(Without(s, day))
  {
    if s != [] {
      WithoutKeepsNoDuplicates(s[1..], day);
      var rest := Without(s[1..], day);
      assert s[0] !in s[1..] by {
        forall j | 0 <= j < |s[1..]| ensures s[1..][j] != s[0] {
          assert s[1..][j] == s[j + 1];
        }
      }
      assert s[0] !in rest;
    }
  }

  /** "매일" with all seven selected clears the selection. */
  lemma EveryDayClearsFullSelection(selected: seq<string>)
    requires |selected| == 7
    ensures ToggleDay(selected, EVERY_DAY) == []
  {
  }

  /** "매일" otherwise selects exactly 월..일 in that order. */
  lemma EveryDayFillsPartialSelection(selected: seq<string>)
    requires |selected| != 7
    ensures ToggleDay(selected, EVERY_DAY) == ["월", "화", "수", "목", "금", "토", "일"]
  {
  }

  /** As a set, a regular day is flipped and every other day keeps its state. */
  lemma ToggleFlipsOneDay(selected: seq<string>, day: string, d: string)
    requires day != EVERY_DAY
    ensures d in ToggleDay(selected, day) <==> (if d == day then day !in selected else d in selected)
  {
  }

  /** Toggling a selected day removes it and keeps every other entry in order. */
  lemma ToggleRemovesSelected(selected: seq<string>, day: string)
    requires day != EVERY_DAY && day in selected
    ensures ToggleDay(selected, day) == Without(selected, day)
    ensures day !in ToggleDay(selected, day)
  {
  }

  /** Toggling an unselected day appends it at the end. */
  lemma ToggleAppendsUnselected(selected: seq<string>, day: string)
    requires day != EVERY_DAY && day !in selected
    ensures ToggleDay(selected, day) == selected + [day]
  {
  }

  /** Toggling an unselected day twice gives back the selection unchanged. */
  lemma ToggleTwiceRestores(selected: seq<string>, day: string)
    requires day != EVERY_DAY && day !in selected
    ensures ToggleDay(ToggleDay(selected, day), day) == selected
  {
    WithoutAppend(selected, [day], day);
    WithoutAbsent(selected, day);
    assert Without([day], day) == [] by {
      assert [day][1..] == [];
    }
    assert selected + [] == selected;
  }

  /** The selection never gets a duplicate, and "매일" itself is never put into it. */
  lemma ToggleKeepsSelectionClean(selected: seq<string>, day: string)
    requires NoDuplicates(selected) && EVERY_DAY !in selected
    ensures NoDuplicates(ToggleDay(selected, day))
    ensures EVERY_DAY !in ToggleDay(selected, day)
  {
    if day != EVERY_DAY && day in selected {
      WithoutKeepsNoDuplicates(selected, day);
    }
  }

  /** Whether a checkbox of the picker is drawn checked. */
  function IsChecked(selected: seq<string>, day: string): bool {
    day in selected || (day == EVERY_DAY && |selected| == 7)
  }

  /** On a clean selection "매일" is checked iff seven days are selected; a day iff it is selected. */
  lemma CheckedBoxes(selected: seq<string>, day: string)
    requires EVERY_DAY !in selected
    ensures IsChecked(selected, EVERY_DAY) <==> |selected| == 7
    ensures day != EVERY_DAY ==> (IsChecked(selected, day) <==> day in selected)
  {
  }

  /** `i.toString().padStart(2, '0')` */
  function TwoDigits(i: nat): string {
    PadStart(NatToString(i), 2, '0')
  }

  /** `Array.from({ length: n }, (_, i) => i.toString().padStart(2, '0'))` */
  function PaddedRange(n: nat): (r: seq<string>)
    ensures |r| == n
  {
    seq(n, i requires 0 <= i < n => TwoDigits(i))
  }

  function HourOptions(): seq<string> {
    PaddedRange(24)
  }

  function MinuteOptions(): seq<string> {
    PaddedRange(60)
  }

  /** Below 100, the padded text is exactly the tens digit then the units digit. */
  lemma TwoDigitsSpelled(i: nat)
    requires i < 100
    ensures TwoDigits(i) == [DigitChar(i / 10), DigitChar(i % 10)]
    ensures AllDigits(TwoDigits(i)) && DigitsValue(TwoDigits(i)) == i
  {
    if i >= 10 {
      assert NatToString(i / 10) == [DigitChar(i / 10)];
    } else {
      assert seq(1, _ => '0') == ['0'];
    }
    var s := TwoDigits(i);
    assert s[..1] == [s[0]];
    assert [s[0]][..0] == [];
    assert DigitsValue(s[..1]) == i / 10;
    assert DigitsValue(s) == (i / 10) * 10 + i % 10;
  }

  /** The hour options are "00".."23" and the minute options "00".."59", in order. */
  lemma OptionsAreTwoDigitCounters(n: nat, i: nat)
    requires n <= 100 && i < n
    ensures |PaddedRange(n)[i]| == 2
    ensures PaddedRange(n)[i] == [DigitChar(i / 10), DigitChar(i % 10)]
    ensures NumberOf(PaddedRange(n)[i]) == Num(i)
  {
    TwoDigitsSpelled(i);
  }

  /** No option appears twice. */
  lemma OptionsAreDistinct(n: nat)
    requires n <= 100
    ensures NoDuplicates(PaddedRange(n))
  {
    forall i, j | 0 <= i < j < n ensures PaddedRange(n)[i] != PaddedRange(n)[j] {
      OptionsAreTwoDigitCounters(n, i);
      OptionsAreTwoDigitCounters(n, j);
    }
  }
}
