/**
 * AddTransactionModal: the amount typed on the numpad, the transaction type with its default
 * category, the note and the date, and the confirm button that hands a draft to the App.
 */
module EntryForm {
  import opened Types
  import opened Seqs
  import opened Numbers
  import opened AppState

  // ---------------------------------------------------------------------------
  // The numpad

  /** The keys of the numpad other than OK: DEL, '.', and the ten digits. */
  datatype PadKey = Backspace | Point | Digit(c: char)

  predicate ValidKey(key: PadKey) { key.Digit? ==> IsDigit(key.c) }

  /** handleNumPad on the current amount string. */
  function PressKey(amount: string, key: PadKey): string
  {
    match key
    case Backspace => if |amount| > 1 then amount[..|amount| - 1] else "0"
    case Point => if '.' in amount then amount else amount + "."
    case Digit(c) => if amount == "0" then [c] else amount + [c]
  }

  /**
   * The strings the numpad can produce from "0": digits with at most one point, never empty,
   * never starting with the point, and a leading 0 only as "0" itself or before the point.
   */
  ghost predicate WellFormedAmount(s: string)
  {
    && |s| > 0
    && (forall i :: 0 <= i < |s| ==> IsDigit(s[i]) || s[i] == '.')
    && (forall i, j :: 0 <= i < j < |s| && s[i] == '.' ==> s[j] != '.')
    && s[0] != '.'
    && (s[0] == '0' && |s| > 1 ==> s[1] == '.')
  }

  /** Whatever key is pressed, the amount stays a well-formed, non-empty decimal with at most one point. */
  lemma PressKeyWellFormed(s: string, key: PadKey)
    requires WellFormedAmount(s) && ValidKey(key)
    ensures WellFormedAmount(PressKey(s, key))
  {
    var r := PressKey(s, key);
    match key
    case Backspace =>
      if |s| > 1 {
        assert forall i :: 0 <= i < |r| ==> r[i] == s[i];
      }
    case Point =>
      if '.' !in s {
        assert forall i :: 0 <= i < |s| ==> r[i] == s[i];
      }
    case Digit(c) =>
      if s != "0" {
        assert forall i :: 0 <= i < |s| ==> r[i] == s[i];
        if s[0] == '0' {
          assert |s| > 1;
        }
      }
  }

  /** DEL takes back the digit just typed, also when that digit replaced the initial "0". */
  lemma BackspaceUndoesDigit(s: string, c: char)
    requires |s| > 0
    ensures PressKey(PressKey(s, Digit(c)), Backspace) == s
  {
    if s == "0" {
      assert PressKey(s, Digit(c)) == [c];
    } else {
      assert (s + [c])[..|s|] == s;
    }
  }

  /** DEL takes back a point just typed. */
  lemma BackspaceUndoesPoint(s: string)
    requires |s| > 0 && '.' !in s
    ensures PressKey(PressKey(s, Point), Backspace) == s
  {
    assert (s + ".")[..|s|] == s;
  }

  /** A second point changes nothing. */
  lemma PointIdempotent(s: string)
    ensures PressKey(PressKey(s, Point), Point) == PressKey(s, Point)
  {
    if '.' !in s {
      assert (s + ".")[|s|] == '.';
    }
  }

  // ---------------------------------------------------------------------------
  // Reading the amount (parseFloat on a well-formed amount)

  /** The position of the point, or |s| when there is none. */
  function PointIndex(s: string): (i: nat)
    ensures i <= |s|
    ensures i < |s| ==> s[i] == '.'
    ensures forall j :: 0 <= j < i ==> s[j] != '.'
  {
    if s == [] then 0
    else if s[0] == '.' then 0
    else
      var i := PointIndex(s[1..]);
      assert forall j :: 1 <= j < |s| ==> s[j] == s[1..][j - 1];
      i + 1
  }

  /** The exact decimal a well-formed amount denotes: integer digits, then the fraction after the point. */
  function ParseAmount(s: string): real
    requires WellFormedAmount(s)
  {
    var p := PointIndex(s);
    DigitsValue(s[..p]) as real + (if p < |s| then FractionValue(s[p + 1..]) else 0.0)
  }

  lemma {:induction false} PointIndexOfDigits(s: string)
    requires '.' !in s
    ensures PointIndex(s) == |s|
  {
    if s != [] {
      assert forall c :: c in s[1..] ==> c in s;
      PointIndexOfDigits(s[1..]);
    }
  }

  /** Both sides of the point of a well-formed amount are all digits. */
  lemma PartsAreDigits(s: string)
    requires WellFormedAmount(s)
    ensures AllDigits(s[..PointIndex(s)])
    ensures PointIndex(s) < |s| ==> AllDigits(s[PointIndex(s) + 1..])
  {
    var p := PointIndex(s);
    if p < |s| {
      var f := s[p + 1..];
      forall i | 0 <= i < |f| ensures IsDigit(f[i]) {
        assert f[i] == s[p + 1 + i];
      }
    }
  }

  /** A nonzero digit of `s` lies before the point at `p` or after it. */
  lemma NonzeroAroundPoint(s: string, p: nat)
    requires p <= |s| && (p < |s| ==> s[p] == '.')
    ensures HasNonzeroDigit(s) <==> HasNonzeroDigit(s[..p]) || (p < |s| && HasNonzeroDigit(s[p + 1..]))
  {
    if HasNonzeroDigit(s[..p]) {
      var i :| 0 <= i < p && '1' <= s[..p][i] <= '9';
      assert s[i] == s[..p][i];
    }
    if p < |s| && HasNonzeroDigit(s[p + 1..]) {
      var i :| 0 <= i < |s| - p - 1 && '1' <= s[p + 1..][i] <= '9';
      assert s[p + 1 + i] == s[p + 1..][i];
    }
    if HasNonzeroDigit(s) {
      var i :| 0 <= i < |s| && '1' <= s[i] <= '9';
      if i < p {
        assert s[..p][i] == s[i];
      } else {
        assert s[p + 1..][i - p - 1] == s[i];
      }
    }
  }

  /** The save guard: the typed amount is positive exactly when one of its digits is not 0. */
  lemma ParsePositiveIff(s: string)
    requires WellFormedAmount(s)
    ensures ParseAmount(s) > 0.0 <==> HasNonzeroDigit(s)
  {
    var p := PointIndex(s);
    PartsAreDigits(s);
    DigitsValuePositive(s[..p]);
    NonzeroAroundPoint(s, p);
    if p < |s| {
      FractionValueBounds(s[p + 1..]);
    }
  }

  /** Typing a digit before any point shifts the value one decimal place and adds the digit. */
  lemma DigitAppendsToValue(s: string, c: char)
    requires WellFormedAmount(s) && '.' !in s && IsDigit(c)
    ensures WellFormedAmount(PressKey(s, Digit(c)))
    ensures ParseAmount(PressKey(s, Digit(c))) == ParseAmount(s) * 10.0 + DigitValue(c) as real
  {
    PressKeyWellFormed(s, Digit(c));
    var r := PressKey(s, Digit(c));
    PointIndexOfDigits(s);
    assert '.' !in r;
    PointIndexOfDigits(r);
    assert s[..|s|] == s && r[..|r|] == r;
    if s == "0" {
      assert DigitsValue(s) == 0;
    } else {
      assert r[..|r| - 1] == s;
    }
  }

  // ---------------------------------------------------------------------------
  // The default category

  /** The effect on the type: the first category of that type in list order, else the previous choice. */
  function DefaultCategory(categories: seq<Category>, ty: TxType, previous: string): (r: string)
    ensures (forall i :: 0 <= i < |categories| ==> categories[i].txType != ty) ==> r == previous
    ensures forall i :: (0 <= i < |categories| && categories[i].txType == ty &&
                         forall j :: 0 <= j < i ==> categories[j].txType != ty) ==> r == categories[i].id
  {
    var first := FindFirst(categories, CategoryTypeOf, ty);
    if first.Some? then first.value.id else previous
  }

  // ---------------------------------------------------------------------------
  // The form

  class AddTransactionForm {
    var amount: string
    var txType: TxType
    var selectedCategoryId: string
    var note: string
    var date: Date
    const categories: seq<Category>

    ghost predicate Valid()
      reads this
    {
      WellFormedAmount(amount)
    }

    /** The modal as it opens: amount "0", an expense, no note, today's date, and the effect's default category. */
    constructor (cats: seq<Category>, today: Date)
      ensures Valid()
      ensures amount == "0" && txType == Expense && note == "" && date == today && categories == cats
      ensures selectedCategoryId == DefaultCategory(cats, Expense, "")
    {
      amount := "0";
      txType := Expense;
      note := "";
      date := today;
      categories := cats;
      selectedCategoryId := DefaultCategory(cats, Expense, "");
    }

    method NumPad(key: PadKey)
      requires Valid() && ValidKey(key)
      modifies this`amount
      ensures Valid()
      ensures amount == PressKey(old(amount), key)
    {
      PressKeyWellFormed(amount, key);
      amount := PressKey(amount, key);
    }

    /** setType; the default-category effect runs only when the type actually changes. */
    method SelectType(ty: TxType)
      modifies this`txType, this`selectedCategoryId
      ensures txType == ty
      ensures selectedCategoryId == if ty == old(txType) then old(selectedCategoryId)
                                    else DefaultCategory(categories, ty, old(selectedCategoryId))
    {
      if ty != txType {
        txType := ty;
        selectedCategoryId := DefaultCategory(categories, ty, selectedCategoryId);
      }
    }

    method SelectCategory(id: string)
      modifies this`selectedCategoryId
      ensures selectedCategoryId == id
    {
      selectedCategoryId := id;
    }

    method SetNote(text: string)
      modifies this`note
      ensures note == text
    {
      note := text;
    }

    method SetDate(d: Date)
      modifies this`date
      ensures date == d
    {
      date := d;
    }

    /** What onSave receives. */
    function ToDraft(): Draft
      reads this
      requires Valid()
    {
      Draft(ParseAmount(amount), txType, selectedCategoryId, date, note)
    }

    /** handleConfirm: a positive amount is saved through the App's add handler; otherwise nothing happens. */
    method Confirm(app: App, idClock: nat, stampClock: int) returns (saved: bool)
      requires Valid()
      modifies app`transactions, app`isAddModalOpen
      ensures saved <==> HasNonzeroDigit(amount)
      ensures saved ==> app.transactions == [Stamp(ToDraft(), NatToString(idClock), stampClock, app.activeLedgerId)] + old(app.transactions)
      ensures saved ==> !app.isAddModalOpen
      ensures !saved ==> app.transactions == old(app.transactions) && app.isAddModalOpen == old(app.isAddModalOpen)
    {
      var value := ParseAmount(amount);
      ParsePositiveIff(amount);
      if value <= 0.0 {
        return false;
      }
      app.AddTransaction(Draft(value, txType, selectedCategoryId, date, note), idClock, stampClock);
      saved := true;
    }
  }
}
