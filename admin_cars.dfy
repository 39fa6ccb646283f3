/**
 * The admin's car page (src/pages/admin/AdminCars.tsx): the edit form and
 * its defaults, the comma-separated image field, the dialog state and the
 * save and delete handlers over the `cars` table.
 */
module AdminCars {
  import opened Seqs
  import opened Domain
  import opened Text
  import opened Cars
  import PriceCalculator

  /** The `form` state: every column the dialog edits, with `''` and `0` for the empty ones. */
  datatype CarForm = CarForm(
    make: string,
    model: string,
    year: int,
    bodyType: string,
    fuelType: string,
    transmission: string,
    mileage: int,
    color: string,
    description: string,
    publicPrice: int,
    costPrice: int,
    deliveryCost: int,
    customsCost: int,
    utilizationFee: int,
    registrationCost: int,
    commission: int,
    sellerNotes: string,
    status: CarStatus,
    isFeatured: Option<bool>,
    images: seq<string>)

  const DefaultFuel: string := "Бензин"
  const DefaultTransmission: string := "Автомат"

  /** The blank form, dated with the current year (the clock is a parameter). */
  function DefaultForm(currentYear: int): (f: CarForm)
    ensures f.year == currentYear && f.make == "" && f.images == []
    ensures f.status == Available && f.isFeatured == Some(false)
  {
    CarForm("", "", currentYear, "", DefaultFuel, DefaultTransmission, 0, "", "", 0, 0,
            PriceCalculator.DefaultDelivery, PriceCalculator.DefaultCustoms,
            PriceCalculator.DefaultUtilization, PriceCalculator.DefaultRegistration,
            PriceCalculator.DefaultCommission, "", Available, Some(false), [])
  }

  /** The cost rows of the blank form are the calculator's defaults. */
  lemma BlankFormCostsAreCalculatorDefaults(currentYear: int)
    ensures [DefaultForm(currentYear).deliveryCost, DefaultForm(currentYear).customsCost,
             DefaultForm(currentYear).utilizationFee, DefaultForm(currentYear).registrationCost,
             DefaultForm(currentYear).commission] == [300000, 150000, 50000, 25000, 100000]
  {
  }

  /** `x || fallback` on a nullable text column. */
  function TextOr(x: Option<string>, fallback: string): string
  {
    if Truthy(x) then x.value else fallback
  }

  /** `x || fallback` on a nullable number column: `null` and `0` both fall back. */
  function NumberOr(x: Option<int>, fallback: int): int
  {
    if TruthyNumber(x) then x.value else fallback
  }

  /** `car.images || []`: a `null` list opens empty; any array, even an empty one, is truthy. */
  function ImagesOr(images: Option<seq<string>>): seq<string>
  {
    if images.Some? then images.value else []
  }

  /** The form `handleEdit` fills from a car; `is_featured` is copied without a fallback. */
  function FormFromCar(car: Car): CarForm
  {
    var c := car.fields;
    CarForm(c.make, c.model, c.year, TextOr(c.bodyType, ""), TextOr(c.fuelType, DefaultFuel),
            TextOr(c.transmission, DefaultTransmission), NumberOr(c.mileage, 0), TextOr(c.color, ""),
            TextOr(c.description, ""), c.publicPrice, NumberOr(c.costPrice, 0),
            NumberOr(c.deliveryCost, PriceCalculator.DefaultDelivery),
            NumberOr(c.customsCost, PriceCalculator.DefaultCustoms),
            NumberOr(c.utilizationFee, PriceCalculator.DefaultUtilization),
            NumberOr(c.registrationCost, PriceCalculator.DefaultRegistration),
            NumberOr(c.commission, PriceCalculator.DefaultCommission),
            TextOr(c.sellerNotes, ""), c.status, c.isFeatured, ImagesOr(c.images))
  }

  /** The columns the form sends: every field as it stands, `''` and `0` included. */
  function FormToFields(f: CarForm): (c: CarFields)
    ensures c.bodyType == Some(f.bodyType) && c.costPrice == Some(f.costPrice)
    ensures c.deliveryCost == Some(f.deliveryCost) && c.commission == Some(f.commission)
    ensures c.isFeatured == f.isFeatured && c.images == Some(f.images)
  {
    CarFields(f.make, f.model, f.year, Some(f.bodyType), Some(f.fuelType), Some(f.transmission),
              Some(f.mileage), Some(f.color), Some(f.description), f.publicPrice, Some(f.costPrice),
              Some(f.deliveryCost), Some(f.customsCost), Some(f.utilizationFee), Some(f.registrationCost),
              Some(f.commission), Some(f.sellerNotes), f.status, f.isFeatured, Some(f.images))
  }

  /**
   * A cost column that is `null` or `0` opens at the blank form's value;
   * a set one opens as it is.
   */
  lemma EditFallsBackToBlankForm(car: Car, currentYear: int)
    ensures var f, b, c := FormFromCar(car), DefaultForm(currentYear), car.fields;
      (f.deliveryCost == if TruthyNumber(c.deliveryCost) then c.deliveryCost.value else b.deliveryCost) &&
      (f.customsCost == if TruthyNumber(c.customsCost) then c.customsCost.value else b.customsCost) &&
      (f.utilizationFee == if TruthyNumber(c.utilizationFee) then c.utilizationFee.value else b.utilizationFee) &&
      (f.registrationCost == if TruthyNumber(c.registrationCost) then c.registrationCost.value else b.registrationCost) &&
      (f.commission == if TruthyNumber(c.commission) then c.commission.value else b.commission) &&
      (f.fuelType == if Truthy(c.fuelType) then c.fuelType.value else b.fuelType) &&
      (f.transmission == if Truthy(c.transmission) then c.transmission.value else b.transmission)
  {
  }

  /** Opening a car and saving it unchanged writes no `null` or `0` into its cost columns. */
  lemma EditSaveSetsEveryCost(car: Car)
    ensures var c := FormToFields(FormFromCar(car));
      TruthyNumber(c.deliveryCost) && TruthyNumber(c.customsCost) && TruthyNumber(c.utilizationFee) &&
      TruthyNumber(c.registrationCost) && TruthyNumber(c.commission)
  {
  }

  /**
   * No column of the car falls back when it is opened: the text,
   * `mileage`, `cost_price` and `images` columns are not `null`, and the
   * columns with a non-empty fallback are truthy.
   */
  predicate NoFallback(c: CarFields)
  {
    c.bodyType.Some? && Truthy(c.fuelType) && Truthy(c.transmission) && c.mileage.Some? &&
    c.color.Some? && c.description.Some? && c.costPrice.Some? &&
    TruthyNumber(c.deliveryCost) && TruthyNumber(c.customsCost) && TruthyNumber(c.utilizationFee) &&
    TruthyNumber(c.registrationCost) && TruthyNumber(c.commission) && c.sellerNotes.Some? &&
    c.images.Some?
  }

  /**
   * Opening a car in the form and saving it unchanged gives back its
   * columns exactly when no column falls back; otherwise the save writes the
   * fallback (`''`, `0` or a default) in place of what was stored.
   */
  lemma EditSaveRoundTrip(car: Car)
    ensures FormToFields(FormFromCar(car)) == car.fields <==> NoFallback(car.fields)
    ensures car.fields.images.None? ==> FormToFields(FormFromCar(car)).images == Some([])
    ensures FormToFields(FormFromCar(car)).isFeatured == car.fields.isFeatured
  {
  }

  // ---------------------------------------------------------------- image field

  /** Trims each piece and drops the empty ones: `.map(s => s.trim()).filter(Boolean)`. */
  function TrimmedPieces(pieces: seq<string>): (r: seq<string>)
    ensures forall x :: x in r ==> x != "" && IsTrimmed(x)
  {
    if pieces == [] then []
    else
      var t := Trim(pieces[0]);
      var rest := TrimmedPieces(pieces[1..]);
      if t == "" then rest else [t] + rest
  }

  /** Comma-free pieces stay comma-free once trimmed. */
  lemma {:induction false} TrimmedPiecesCommaFree(pieces: seq<string>)
    requires forall i :: 0 <= i < |pieces| ==> ',' !in pieces[i]
    ensures forall x :: x in TrimmedPieces(pieces) ==> ',' !in x
  {
    if pieces != [] {
      var first, rest := pieces[0], pieces[1..];
      assert ',' !in first;
      assert forall i :: 0 <= i < |rest| ==> rest[i] == pieces[i + 1];
      TrimmedPiecesCommaFree(rest);
      TrimKeepsOut(first, ',');
      assert [first] + rest == pieces;
      TrimmedPiecesCons(first, rest);
      forall x | x in TrimmedPieces(pieces) ensures ',' !in x {
        if x != Trim(first) {
          assert x in TrimmedPieces(rest);
        }
      }
    }
  }

  /** A character absent from a string is absent from its trim. */
  lemma TrimKeepsOut(s: string, c: char)
    ensures c !in s ==> c !in Trim(s)
  {
    var i :| OccursAt(s, Trim(s), i);
    forall k | 0 <= k < |Trim(s)| ensures Trim(s)[k] == s[i + k] {
    }
  }

  /** What the image input shows: the list joined with `", "`. */
  function JoinImages(images: seq<string>): string
  {
    Join(images, ", ")
  }

  /** A URL the image field can hold: non-empty, trimmed and without commas. */
  predicate IsImageUrl(x: string)
  {
    x != "" && IsTrimmed(x) && ',' !in x
  }

  /** What the image input stores when typed into: the text split at commas, trimmed, empties dropped. */
  function ParseImages(text: string): (r: seq<string>)
    ensures forall x :: x in r ==> IsImageUrl(x)
  {
    TrimmedPiecesCommaFree(Split(text, ','));
    TrimmedPieces(Split(text, ','))
  }

  /** A leading space does not change a trim. */
  lemma TrimLeadingSpace(x: string)
    ensures Trim(" " + x) == Trim(x)
  {
    assert (" " + x)[1..] == x;
  }

  /** A comma-free piece is split into itself. */
  lemma SplitWhole(a: string)
    requires ',' !in a
    ensures Split(a, ',') == [a]
  {
    SplitPrefix(a, "", ',');
    assert a + "" == a;
  }

  /** Splitting `a, rest` at commas: `a`, then the pieces of ` rest`. */
  lemma SplitJoined(a: string, j: string)
    requires ',' !in a
    ensures Split(a + ", " + j, ',') == [a] + Split(" " + j, ',')
  {
    assert a + ", " + j == a + (", " + j);
    SplitPrefix(a, ", " + j, ',');
    assert (", " + j)[1..] == " " + j;
    assert a + "" == a;
  }

  /** `TrimmedPieces` on a list given by its first piece. */
  lemma TrimmedPiecesCons(x: string, rest: seq<string>)
    ensures TrimmedPieces([x] + rest) ==
      if Trim(x) == "" then TrimmedPieces(rest) else [Trim(x)] + TrimmedPieces(rest)
  {
    assert ([x] + rest)[1..] == rest;
  }

  /** The space after a comma is trimmed away with the piece it starts. */
  lemma PiecesAfterSpace(j: string)
    ensures TrimmedPieces(Split(" " + j, ',')) == TrimmedPieces(Split(j, ','))
  {
    SplitPrefix(" ", j, ',');
    var pieces := Split(j, ',');
    assert pieces == [pieces[0]] + pieces[1..];
    TrimLeadingSpace(pieces[0]);
    TrimmedPiecesCons(" " + pieces[0], pieces[1..]);
    TrimmedPiecesCons(pieces[0], pieces[1..]);
  }

  /**
   * The text the input shows parses back to the list it came from, when
   * every URL is non-empty, trimmed and free of commas.
   */
  lemma {:induction false} ImagesRoundTrip(images: seq<string>)
    requires forall x :: x in images ==> IsImageUrl(x)
    ensures ParseImages(JoinImages(images)) == images
  {
    if images == [] {
      assert Split("", ',') == [""];
      assert Trim("") == "";
    } else if |images| == 1 {
      var a := images[0];
      assert IsImageUrl(images[0]);
      SplitWhole(a);
      TrimTrimmed(a);
      assert TrimmedPieces([a]) == [a] by {
        assert [a][1..] == [];
      }
    } else {
      var a, rest := images[0], images[1..];
      assert IsImageUrl(images[0]);
      assert forall x :: x in rest ==> x in images;
      ImagesRoundTrip(rest);
      var j := JoinImages(rest);
      assert JoinImages(images) == a + ", " + j;
      SplitJoined(a, j);
      PiecesAfterSpace(j);
      TrimTrimmed(a);
      var all := [a] + Split(" " + j, ',');
      assert all[1..] == Split(" " + j, ',');
    }
  }

  /** Showing the stored list and parsing it again changes nothing. */
  lemma ImagesStable(text: string)
    ensures ParseImages(JoinImages(ParseImages(text))) == ParseImages(text)
  {
    ImagesRoundTrip(ParseImages(text));
  }

  // ---------------------------------------------------------------- dialog state

  /** The form with its image list replaced. */
  function WithImages(f: CarForm, images: seq<string>): (g: CarForm)
    ensures g.images == images
  {
    f.(images := images)
  }

  /** The page's three states: the form, the car being edited and whether the dialog is open. */
  datatype PageState = PageState(form: CarForm, editing: Option<Car>, dialogOpen: bool)

  /** `resetForm`: the blank form and no car being edited; the dialog is left as it is. */
  function Reset(s: PageState, currentYear: int): (t: PageState)
    ensures t.editing.None? && t.form == DefaultForm(currentYear) && t.dialogOpen == s.dialogOpen
  {
    s.(form := DefaultForm(currentYear), editing := None)
  }

  /** `handleEdit(car)`. */
  function Edit(car: Car): (t: PageState)
    ensures t.editing == Some(car) && t.form == FormFromCar(car) && t.dialogOpen
  {
    PageState(FormFromCar(car), Some(car), true)
  }

  /** The dialog's `onOpenChange`: opening keeps the state, closing also resets the form. */
  function OpenChange(s: PageState, open: bool, currentYear: int): (t: PageState)
    ensures t.dialogOpen == open
    ensures open ==> t.form == s.form && t.editing == s.editing
    ensures !open ==> t.editing.None? && t.form == DefaultForm(currentYear)
  {
    if open then s.(dialogOpen := true) else Reset(s.(dialogOpen := false), currentYear)
  }

  /** The "Отмена" button as written: it only sets `isDialogOpen` to false. */
  function CancelAsWritten(s: PageState): (t: PageState)
    ensures !t.dialogOpen && t.form == s.form && t.editing == s.editing
  {
    s.(dialogOpen := false)
  }

  /** What "Сохранить"/"Добавить" sends: an update of the edited car, or an insert. */
  datatype Submission = UpdateCar(id: Uuid, fields: CarFields) | CreateCar(fields: CarFields)

  function SubmissionOf(s: PageState): (r: Submission)
    ensures r.UpdateCar? <==> s.editing.Some?
    ensures r.UpdateCar? ==> r.id == s.editing.value.id
    ensures r.fields == FormToFields(s.form)
  {
    if s.editing.Some? then UpdateCar(s.editing.value.id, FormToFields(s.form)) else CreateCar(FormToFields(s.form))
  }

  /** The dialog's title. */
  function DialogTitle(s: PageState): (title: string)
    ensures title == "Редактировать" <==> s.editing.Some?
  {
    if s.editing.Some? then "Редактировать" else "Новый автомобиль"
  }

  /**
   * As written, cancelling an edit and then pressing "Добавить авто" opens
   * the dialog still titled "Редактировать" with the old car's form, and
   * saving it overwrites that car instead of adding one.
   */
  lemma CancelThenAddOverwrites(car: Car, currentYear: int)
    ensures var t := OpenChange(CancelAsWritten(Edit(car)), true, currentYear);
      t.dialogOpen && DialogTitle(t) == "Редактировать" &&
      SubmissionOf(t) == UpdateCar(car.id, FormToFields(FormFromCar(car)))
  {
  }

  /** Cancel through `onOpenChange(false)`, as closing the dialog any other way does. */
  function CancelCorrected(s: PageState, currentYear: int): (t: PageState)
    ensures !t.dialogOpen && t.editing.None? && t.form == DefaultForm(currentYear)
  {
    OpenChange(s, false, currentYear)
  }

  /** With the corrected cancel, "Добавить авто" always opens a blank form that inserts a new car. */
  lemma CancelThenAddCreates(s: PageState, currentYear: int)
    ensures var t := OpenChange(CancelCorrected(s, currentYear), true, currentYear);
      t.dialogOpen && DialogTitle(t) == "Новый автомобиль" &&
      SubmissionOf(t) == CreateCar(FormToFields(DefaultForm(currentYear)))
  {
  }

  /** The page component's state. */
  class AdminCarsPage {
    var form: CarForm
    var editing: Option<Car>
    var dialogOpen: bool

    function State(): PageState
      reads this
    {
      PageState(form, editing, dialogOpen)
    }

    constructor (currentYear: int)
      ensures State() == PageState(DefaultForm(currentYear), None, false)
    {
      form := DefaultForm(currentYear);
      editing := None;
      dialogOpen := false;
    }

    method ResetForm(currentYear: int)
      modifies this
      ensures State() == Reset(old(State()), currentYear)
    {
      form := DefaultForm(currentYear);
      editing := None;
    }

    method HandleEdit(car: Car)
      modifies this
      ensures State() == Edit(car)
    {
      editing := Some(car);
      form := FormFromCar(car);
      dialogOpen := true;
    }

    method OnOpenChange(open: bool, currentYear: int)
      modifies this
      ensures State() == OpenChange(old(State()), open, currentYear)
    {
      dialogOpen := open;
      if !open {
        ResetForm(currentYear);
      }
    }

    /** The "Отмена" button as written: `setIsDialogOpen(false)` and nothing else. */
    method Cancel()
      modifies this
      ensures State() == CancelAsWritten(old(State()))
    {
      dialogOpen := false;
    }

    /** The cancel the page evidently intends: closing through `onOpenChange(false)`. */
    method CancelFixed(currentYear: int)
      modifies this
      ensures State() == CancelCorrected(old(State()), currentYear)
    {
      OnOpenChange(false, currentYear);
    }

    /** An input's `setForm(f => ({ ...f, … }))`. */
    method EditForm(next: CarForm)
      modifies this
      ensures State() == old(State()).(form := next)
    {
      form := next;
    }

    /** Typing into the image input. */
    method TypeImages(text: string)
      modifies this
      ensures form == WithImages(old(form), ParseImages(text))
      ensures unchanged(`editing, `dialogOpen)
    {
      form := WithImages(form, ParseImages(text));
    }

    /**
     * `handleSubmit`: an update of the edited car or an insert; only a
     * successful save closes the dialog and resets the form.
     */
    method HandleSubmit(table: CarTable, newId: Uuid, now: int, currentYear: int) returns (toast: Toast)
      requires table.Valid()
      modifies this, table
      ensures table.Valid()
      ensures old(SubmissionOf(State())).UpdateCar? ==>
        |table.rows| == |old(table.rows)| &&
        (forall i :: 0 <= i < |table.rows| ==>
          table.rows[i] == if old(table.rows)[i].id == old(editing).value.id
                           then old(table.rows)[i].(fields := FormToFields(old(form)))
                           else old(table.rows)[i]) &&
        (toast == Success("Автомобиль обновлён") <==> old(editing).value.id in CarIds(old(table.rows)))
      ensures old(SubmissionOf(State())).CreateCar? ==>
        (newId !in CarIds(old(table.rows)) ==>
          table.rows == old(table.rows) + [Car(newId, now, FormToFields(old(form)))] &&
          toast == Success("Автомобиль добавлен")) &&
        (newId in CarIds(old(table.rows)) ==> table.rows == old(table.rows))
      ensures toast.Success? ==> State() == Reset(old(State()).(dialogOpen := false), currentYear)
      ensures !toast.Success? ==> toast == Failure("Ошибка сохранения") && State() == old(State())
    {
      var r: Result<Car, string>;
      if editing.Some? {
        r := table.Update(editing.value.id, FormToFields(form));
        if r.Ok? {
          toast := Success("Автомобиль обновлён");
        }
      } else {
        r := table.Insert(FormToFields(form), newId, now);
        if r.Ok? {
          toast := Success("Автомобиль добавлен");
        }
      }
      if r.Err? {
        toast := Failure("Ошибка сохранения");
        return;
      }
      dialogOpen := false;
      ResetForm(currentYear);
    }

    /**
     * `handleDelete`: the row goes only when the `confirm` dialog (a
     * parameter) says yes. A refused delete rejects `mutateAsync`, which the
     * handler does not catch, so no toast appears.
     */
    method HandleDelete(table: CarTable, id: Uuid, confirmed: bool, refusal: Option<string>) returns (toast: Toast)
      requires table.Valid()
      modifies table
      ensures table.Valid()
      ensures !confirmed ==> table.rows == old(table.rows) && toast == Silent
      ensures confirmed && refusal.Some? ==> table.rows == old(table.rows) && toast == Silent
      ensures confirmed && refusal.None? ==>
        (forall c :: c in table.rows <==> c in old(table.rows) && c.id != id) &&
        toast == Success("Автомобиль удалён")
    {
      if !confirmed {
        return Silent;
      }
      var error := table.Delete(id, refusal);
      if error.Some? {
        return Silent;
      }
      toast := Success("Автомобиль удалён");
    }
  }
}
