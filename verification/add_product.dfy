/** The product registration form (`AddProduct`): eight pieces of form
    state, the image picker, and the submit handler that checks the required
    fields, builds the multipart payload and reports the backend's answer. */
module AddProductScreen {
  import opened Wrappers
  import opened Browser
  import opened Catalog

  const RequiredFieldsMessage: string := "이미지, 제품명, 가격은 필수 항목입니다."
  const CreatedMessage: string := "제품이 등록되었습니다."
  const FailurePrefix: string := "등록 실패: "
  const ServerErrorFallback: string := "서버 오류"
  const CommunicationErrorMessage: string := "서버와 통신 중 오류가 발생했습니다."
  const AdminListPath: string := "/ProductAdminList"

  /** A file picked in the browser; its contents are not modelled. */
  datatype File = File(name: string)

  /** One `formData.append(key, value)`. */
  datatype FormField = FileField(key: string, file: File) | TextField(key: string, text: string)

  /** The keys of the multipart payload, in the order they are appended. */
  const FieldOrder: seq<string> := ["image", "name", "category", "price", "stock", "description", "link"]

  function Keys(fields: seq<FormField>): (keys: seq<string>)
    ensures |keys| == |fields|
    ensures forall i :: 0 <= i < |fields| ==> keys[i] == fields[i].key
  {
    seq(|fields|, i requires 0 <= i < |fields| => fields[i].key)
  }

  /** How the POST settles: ok; non-ok with a JSON body whose `error` field
      is absent (None) or a string; non-ok with a body that is not JSON (so
      reading it throws); or a thrown transport error. */
  datatype PostOutcome = PostOk | PostNotOk(error: Option<string>) | PostNotOkUnreadable | PostThrown

  /** `!image || !name || !price`: the fields submit insists on. Only
      emptiness counts: a price of "0" is a non-empty string and passes. */
  predicate MissingRequired(image: Option<File>, name: string, price: string): (missing: bool)
    ensures !missing <==> image.Some? && |name| > 0 && |price| > 0
    ensures image.Some? && name != "" && price == "0" ==> !missing
  {
    image.None? || name == "" || price == ""
  }

  /** `등록 실패: ${errorData.error || "서버 오류"}`: the backend's detail when
      it sent a non-empty one, the generic server error otherwise. */
  function FailureMessage(error: Option<string>): (m: string)
    ensures FailurePrefix <= m
    ensures error.Some? && error.value != "" ==> m[|FailurePrefix|..] == error.value
    ensures error.None? || error.value == "" ==> m[|FailurePrefix|..] == ServerErrorFallback
  {
    FailurePrefix + (if error.Some? && error.value != "" then error.value else ServerErrorFallback)
  }

  /** `categories.slice(1)`: the choices of the category select, that is the
      category list without its leading "all" entry. */
  function CategoryOptions(categories: seq<string>): (options: seq<string>)
    ensures |options| == if categories == [] then 0 else |categories| - 1
    ensures forall i :: 0 <= i < |options| ==> options[i] == categories[i + 1]
  {
    JsSlice(categories, 1, |categories|)
  }

  class AddProductForm {
    const categories: seq<string>
    var description: string
    var name: string
    var price: string
    var stock: string
    var link: string
    var category: string
    var image: Option<File>
    var preview: Option<string>

    /** The selected category is always one of the select's options. */
    ghost predicate Valid()
      reads this
    {
      category in CategoryOptions(categories)
    }

    /** An empty form whose category is the first real category. */
    constructor (categories: seq<string>)
      requires |categories| >= 2
      ensures Valid() && this.categories == categories
      ensures category == categories[1] && category == CategoryOptions(categories)[0]
      ensures description == "" && name == "" && price == "" && stock == "" && link == ""
      ensures image == None && preview == None
    {
      this.categories := categories;
      description, name, price, stock, link := "", "", "", "", "";
      category := categories[1];
      image, preview := None, None;
    }

    /** `handleImageChange`: a picked file (the first one) becomes the image,
        and `objectUrl`, the browser's URL for it, the preview. With no file
        list or an empty one, nothing changes. */
    method HandleImageChange(files: Option<seq<File>>, objectUrl: string)
      requires Valid()
      modifies this`image, this`preview
      ensures Valid()
      ensures files.Some? && files.value != [] ==> image == Some(files.value[0]) && preview == Some(objectUrl)
      ensures files.None? || files.value == [] ==> image == old(image) && preview == old(preview)
    {
      if files.Some? && |files.value| > 0 {
        var file := files.value[0];
        image := Some(file);
        preview := Some(objectUrl);
      }
    }

    method SetName(value: string)
      modifies this`name
      ensures name == value
    {
      name := value;
    }

    method SetPrice(value: string)
      modifies this`price
      ensures price == value
    {
      price := value;
    }

    method SetStock(value: string)
      modifies this`stock
      ensures stock == value
    {
      stock := value;
    }

    /** Any length is accepted: the 2000-character bound is only a counter
        shown beside the text area. */
    method SetDescription(value: string)
      modifies this`description
      ensures description == value
    {
      description := value;
    }

    method SetLink(value: string)
      modifies this`link
      ensures link == value
    {
      link := value;
    }

    /** The category select, which offers only the options. */
    method SetCategory(value: string)
      requires Valid()
      requires value in CategoryOptions(categories)
      modifies this`category
      ensures Valid() && category == value
    {
      category := value;
    }

    /** `handleSubmit`. With a required field missing, only the validation
        alert is shown and no request is sent. Otherwise the seven fields are
        appended in their fixed order, each with the current form value, and
        posted; `outcome` is how the POST settles. Only an ok response leads
        away from the form; the form values are never changed. */
    method HandleSubmit(outcome: PostOutcome) returns (effects: seq<Effect>, sent: Option<seq<FormField>>)
      ensures MissingRequired(image, name, price) ==> sent == None && effects == [Alert(RequiredFieldsMessage)]
      ensures !MissingRequired(image, name, price) ==>
                && sent.Some?
                && Keys(sent.value) == FieldOrder
                && sent.value == [FileField("image", image.value), TextField("name", name),
                                  TextField("category", category), TextField("price", price),
                                  TextField("stock", stock), TextField("description", description),
                                  TextField("link", link)]
      ensures !MissingRequired(image, name, price) ==>
                effects == [Request(Post, ProductsUrl)] +
                  match outcome
                  case PostOk => [Alert(CreatedMessage), Navigate(AdminListPath)]
                  case PostNotOk(error) => [Alert(FailureMessage(error))]
                  case PostNotOkUnreadable => [LogError, Alert(CommunicationErrorMessage)]
                  case PostThrown => [LogError, Alert(CommunicationErrorMessage)]
      ensures Navigate(AdminListPath) in effects <==> !MissingRequired(image, name, price) && outcome.PostOk?
    {
      if image.None? || name == "" || price == "" {
        effects := [Alert(RequiredFieldsMessage)];
        sent := None;
        return;
      }

      var formData: seq<FormField> := [];
      formData := formData + [FileField("image", image.value)];
      formData := formData + [TextField("name", name)];
      formData := formData + [TextField("category", category)];
      formData := formData + [TextField("price", price)];
      formData := formData + [TextField("stock", stock)];
      formData := formData + [TextField("description", description)];
      formData := formData + [TextField("link", link)];
      sent := Some(formData);

      effects := [Request(Post, ProductsUrl)];
      match outcome {
        case PostOk =>
          effects := effects + [Alert(CreatedMessage), Navigate(AdminListPath)];
        case PostNotOk(error) =>
          effects := effects + [Alert(FailureMessage(error))];
        case PostNotOkUnreadable =>
          effects := effects + [LogError, Alert(CommunicationErrorMessage)];
        case PostThrown =>
          effects := effects + [LogError, Alert(CommunicationErrorMessage)];
      }
    }
  }
}
