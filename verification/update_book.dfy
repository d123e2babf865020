/**
 * The dashboard's edit form (frontend/src/pages/dashboard/UpdateBook.jsx): the
 * form is filled from the loaded book, and `onSubmit` turns the form values
 * into the body of `PUT /update-book/:id`. An empty `oldPrice` field is sent as
 * `null`; there is no `coverImage` field, so the cover is the remembered file name.
 */
module UpdateBookForm {
  import opened Common
  import opened BookModel

  /**
   * A form value: a number put there by `setValue`, or the text of an input the
   * user has typed into (the empty text included).
   */
  datatype FieldValue = Number(n: Num) | Text(text: string)

  /** The values react-hook-form holds for the registered fields. */
  datatype BookForm = BookForm(
    title: string,
    author: string,
    description: string,
    category: string,
    trending: bool,
    oldPrice: FieldValue,
    newPrice: FieldValue,
    rating: FieldValue)

  /** The form plus the `imageFileName` state. */
  datatype FormState = FormState(form: BookForm, imageFileName: string)

  /** The body `onSubmit` sends. `rating` is passed on as the form holds it. */
  datatype UpdatePayload = UpdatePayload(
    title: string,
    author: string,
    description: string,
    category: string,
    trending: bool,
    oldPrice: Option<Num>,
    newPrice: Num,
    rating: FieldValue,
    coverImage: string)

  /** `setValue('oldPrice', oldPrice || '')`: `null`, `undefined` and 0 are falsy. */
  function PopulatedOldPrice(oldPrice: Option<Num>): (v: FieldValue)
    ensures oldPrice.None? || oldPrice == Some(0.0) ==> v == Text("")
    ensures oldPrice.Some? && oldPrice.value != 0.0 ==> v == Number(oldPrice.value)
  {
    if oldPrice.None? || oldPrice.value == 0.0 then Text("") else Number(oldPrice.value)
  }

  /** `Number(value)`; `toNumber` stands for the conversion of a text. */
  function ToNumber(v: FieldValue, toNumber: string -> Num): Num {
    match v
    case Number(n) => n
    case Text(s) => toNumber(s)
  }

  /**
   * `data.oldPrice == '' ? null : Number(data.oldPrice)`. The loose comparison
   * also holds for the number 0, because `0 == ''` is true.
   */
  function SubmittedOldPrice(v: FieldValue, toNumber: string -> Num): (r: Option<Num>)
    ensures v == Text("") ==> r.None?
    ensures r.None? <==> v == Text("") || v == Number(0.0)
    ensures r.Some? ==> r.value == ToNumber(v, toNumber)
  {
    match v
    case Text(s) => if s == "" then None else Some(toNumber(s))
    case Number(n) => if n == 0.0 then None else Some(n)
  }

  /** The `useEffect` that fills the form once `bookData` is there. */
  function Populate(b: Book): (st: FormState)
    ensures st.form.title == b.title && st.form.author == b.author
    ensures st.form.description == b.description && st.form.category == b.category
    ensures st.form.trending == b.trending
    ensures st.form.oldPrice == PopulatedOldPrice(b.oldPrice)
    ensures st.form.newPrice == Number(b.newPrice) && st.form.rating == Number(b.rating)
    ensures st.imageFileName == b.coverImage
  {
    FormState(BookForm(b.title, b.author, b.description, b.category, b.trending,
                       PopulatedOldPrice(b.oldPrice), Number(b.newPrice), Number(b.rating)),
              b.coverImage)
  }

  /** `handleFileChange`: a picked file replaces the remembered name; no file changes nothing. */
  function PickFile(st: FormState, fileName: Option<string>): (r: FormState)
    ensures r.form == st.form
    ensures fileName.Some? ==> r.imageFileName == fileName.value
    ensures fileName.None? ==> r == st
  {
    if fileName.Some? then st.(imageFileName := fileName.value) else st
  }

  /**
   * The `required: true` rule `InputField` and `SelectField` register: title,
   * author, genre, `newPrice` and `rating` must not be the empty text. The
   * description and the trending box are registered without it, and `oldPrice`
   * escapes it because its `register` wrapper drops the options. A number put
   * there by `setValue` is never empty.
   */
  predicate UpdateFormComplete(f: BookForm) {
    |f.title| > 0 && |f.author| > 0 && |f.category| > 0 && f.newPrice != Text("") && f.rating != Text("")
  }

  /** `handleSubmit(onSubmit)`: the body is built only when the required fields are filled. */
  function SubmitForm(st: FormState, toNumber: string -> Num): (r: Option<UpdatePayload>)
    ensures r.Some? <==> UpdateFormComplete(st.form)
    ensures r.Some? ==> r.value == Submit(st, toNumber)
  {
    if UpdateFormComplete(st.form) then Some(Submit(st, toNumber)) else None
  }

  /** `onSubmit`'s `updatedBookData`. `data.coverImage` is always undefined. */
  function Submit(st: FormState, toNumber: string -> Num): (p: UpdatePayload)
    ensures p.title == st.form.title && p.author == st.form.author
    ensures p.description == st.form.description && p.category == st.form.category
    ensures p.trending == st.form.trending && p.rating == st.form.rating
    ensures p.coverImage == st.imageFileName
    ensures st.form.oldPrice == Text("") ==> p.oldPrice.None?
    ensures p.oldPrice == SubmittedOldPrice(st.form.oldPrice, toNumber)
    ensures p.newPrice == ToNumber(st.form.newPrice, toNumber)
  {
    UpdatePayload(st.form.title, st.form.author, st.form.description, st.form.category,
                  st.form.trending, SubmittedOldPrice(st.form.oldPrice, toNumber),
                  ToNumber(st.form.newPrice, toNumber), st.form.rating, st.imageFileName)
  }

  /**
   * Loading a book and submitting the form untouched sends the book back: a
   * missing `oldPrice` round-trips to `null`, and so does an `oldPrice` of 0.
   */
  lemma UntouchedResubmit(b: Book, toNumber: string -> Num)
    ensures var p := Submit(Populate(b), toNumber);
            && p.title == b.title && p.author == b.author && p.description == b.description
            && p.category == b.category && p.trending == b.trending
            && p.newPrice == b.newPrice && p.rating == Number(b.rating)
            && p.coverImage == b.coverImage
            && p.oldPrice == (if b.oldPrice == Some(0.0) then None else b.oldPrice)
  {
  }

  /**
   * A loaded book's form can be submitted untouched exactly when its title,
   * author and genre are non-empty: prices and rating arrive as numbers.
   */
  lemma PopulatedFormSubmits(b: Book, toNumber: string -> Num)
    ensures SubmitForm(Populate(b), toNumber).Some? <==> |b.title| > 0 && |b.author| > 0 && |b.category| > 0
  {
  }

  /** After a new file is picked, the submitted cover is that file's name. */
  lemma PickedFileIsSubmitted(b: Book, fileName: string, toNumber: string -> Num)
    ensures Submit(PickFile(Populate(b), Some(fileName)), toNumber).coverImage == fileName
  {
  }
}
