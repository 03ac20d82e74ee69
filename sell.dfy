/** The create-listing form (src/pages/Sell.tsx): text fields, an image list
    capped at five, and a submit that shows a success screen and resets the
    form. */
module Sell {

  import opened Wrappers

  /** At most this many photos are kept. */
  const MaxImages: nat := 5

  /** The form's fields; every one is the raw text of its input. */
  datatype ListingForm = ListingForm(
    title: string,
    description: string,
    category: string,
    condition: string,
    price: string,
    location: string,
    images: seq<string>)

  const EmptyForm := ListingForm("", "", "", "", "", "", [])

  datatype FormField = Title | Description | Category | Condition | Price | Location

  function FieldOf(form: ListingForm, field: FormField): string
  {
    match field
    case Title => form.title
    case Description => form.description
    case Category => form.category
    case Condition => form.condition
    case Price => form.price
    case Location => form.location
  }

  /** `setFormData(prev => ({...prev, <field>: value}))`: one text field changes. */
  function WithField(form: ListingForm, field: FormField, value: string): (r: ListingForm)
    ensures FieldOf(r, field) == value
    ensures forall f :: f != field ==> FieldOf(r, f) == FieldOf(form, f)
    ensures r.images == form.images
  {
    match field
    case Title => form.(title := value)
    case Description => form.(description := value)
    case Category => form.(category := value)
    case Condition => form.(condition := value)
    case Price => form.(price := value)
    case Location => form.(location := value)
  }

  function Min(a: int, b: int): int
  {
    if a <= b then a else b
  }

  /** `[...prev.images, ...newImages].slice(0, 5)`: the first five of the old
      images followed by the new ones. */
  function WithUploaded(images: seq<string>, added: seq<string>): (r: seq<string>)
    ensures |r| == Min(|images| + |added|, MaxImages)
    ensures r == (images + added)[..|r|]
    ensures |images| <= MaxImages ==> r[..|images|] == images
  {
    var all := images + added;
    if |all| <= MaxImages then all else all[..MaxImages]
  }

  /** `prev.images.filter((_, i) => i !== index)`: the image at `index` goes,
      later images move down one place; an index outside the list changes
      nothing. */
  function WithoutImageAt(images: seq<string>, index: int): (r: seq<string>)
    ensures 0 <= index < |images| ==> r == images[..index] + images[index + 1..]
    ensures !(0 <= index < |images|) ==> r == images
    decreases |images|
  {
    if images == [] then []
    else
      var rest := WithoutImageAt(images[1..], index - 1);
      assert 0 < index < |images| ==> images[1..][..index - 1] == images[1..index];
      assert 0 < index < |images| ==> images[1..][index..] == images[index + 1..];
      (if index == 0 then [] else [images[0]]) + rest
  }

  /** The "Add Photo" tile is shown while fewer than five photos are kept. */
  predicate ShowsAddPhoto(images: seq<string>): (b: bool)
    ensures b <==> |WithUploaded(images, ["photo"])| > |images|
  {
    |images| < MaxImages
  }

  /** The submit button's enabled state: not submitting, and all six text
      fields non-empty. Photos are not required. */
  predicate SubmitEnabled(form: ListingForm, isSubmitting: bool): (b: bool)
    ensures b ==> !isSubmitting && form != EmptyForm
    ensures b ==> forall f :: FieldOf(form, f) != ""
  {
    !isSubmitting && form.title != "" && form.description != "" && form.category != ""
      && form.condition != "" && form.price != "" && form.location != ""
  }

  /** Submit is enabled exactly when no field is empty and nothing is pending. */
  lemma SubmitEnabledIff(form: ListingForm, isSubmitting: bool)
    ensures SubmitEnabled(form, isSubmitting) <==>
      !isSubmitting && forall f :: FieldOf(form, f) != ""
  {
    if !SubmitEnabled(form, isSubmitting) && !isSubmitting {
      var f :| f in {Title, Description, Category, Condition, Price, Location} && FieldOf(form, f) == "";
    }
  }

  /** An upload leaves the tile visible exactly when fewer than five photos result. */
  lemma UploadAndTile(images: seq<string>, added: seq<string>)
    ensures ShowsAddPhoto(WithUploaded(images, added)) <==> |images| + |added| < MaxImages
  {
  }

  /** The page state behind the form. */
  class SellPage {
    var form: ListingForm
    var isSubmitting: bool
    var showSuccess: bool

    ghost predicate Valid()
      reads this
    {
      |form.images| <= MaxImages
    }

    constructor ()
      ensures Valid()
      ensures form == EmptyForm && !isSubmitting && !showSuccess
    {
      form := EmptyForm;
      isSubmitting := false;
      showSuccess := false;
    }

    /** Typing into, or choosing a value for, one field. */
    method EditField(field: FormField, value: string)
      requires Valid()
      modifies this
      ensures Valid()
      ensures form == WithField(old(form), field, value)
      ensures isSubmitting == old(isSubmitting) && showSuccess == old(showSuccess)
    {
      form := WithField(form, field, value);
    }

    /** `handleImageUpload`: `None` stands for an input whose file list is null. */
    method UploadImages(files: Option<seq<string>>)
      requires Valid()
      modifies this
      ensures Valid()
      ensures files.None? ==> form == old(form)
      ensures files.Some? ==> form == old(form).(images := WithUploaded(old(form).images, files.value))
      ensures isSubmitting == old(isSubmitting) && showSuccess == old(showSuccess)
    {
      if files.Some? {
        form := form.(images := WithUploaded(form.images, files.value));
      }
    }

    /** `removeImage(index)`. */
    method RemoveImage(index: int)
      requires Valid()
      modifies this
      ensures Valid()
      ensures form == old(form).(images := WithoutImageAt(old(form).images, index))
      ensures isSubmitting == old(isSubmitting) && showSuccess == old(showSuccess)
    {
      form := form.(images := WithoutImageAt(form.images, index));
    }

    /** The synchronous part of `handleSubmit`: mark the form as submitting. */
    method Submit()
      requires Valid()
      modifies this
      ensures Valid()
      ensures isSubmitting && !SubmitEnabled(form, isSubmitting)
      ensures form == old(form) && showSuccess == old(showSuccess)
    {
      isSubmitting := true;
    }

    /** The delayed part of `handleSubmit`: stop submitting, show the success
        screen and reset every field, photos included. */
    method FinishSubmit()
      requires Valid()
      modifies this
      ensures Valid()
      ensures !isSubmitting && showSuccess && form == EmptyForm
      ensures !SubmitEnabled(form, isSubmitting)
    {
      isSubmitting := false;
      showSuccess := true;
      form := EmptyForm;
    }

    /** "List Another Item": back from the success screen to the form. */
    method ListAnother()
      requires Valid()
      modifies this
      ensures Valid()
      ensures !showSuccess
      ensures form == old(form) && isSubmitting == old(isSubmitting)
    {
      showSuccess := false;
    }
  }
}
