/**
 * The add-product form (AddProductPage): how upload events are normalised,
 * which fields the form requires, and the product payload that `onFinish`
 * builds from the form values before posting it.
 */
module ProductForm {
  import opened Wrappers
  import opened FormRules

  /** A browser `File` picked in an upload widget. */
  datatype File = File(name: string, size: nat)

  /** An entry of an upload widget's file list; `originFileObj` is the picked file. */
  datatype UploadFile = UploadFile(uid: string, name: string, originFileObj: Option<File>)

  /** What the upload widget hands to `getValueFromEvent`. */
  datatype UploadEvent =
    | FileArray(files: seq<UploadFile>)               // already an array
    | ChangeEvent(fileList: Option<seq<UploadFile>>)  // an event object
    | NoEvent                                         // undefined or null

  /** normFile: an array is kept as it is, otherwise the event's `fileList` (`e?.fileList`). */
  function NormFile(e: UploadEvent): (r: Option<seq<UploadFile>>)
    ensures e.FileArray? ==> r == Some(e.files)
    ensures e.ChangeEvent? ==> r == e.fileList
    ensures e.NoEvent? ==> r == None
  {
    match e
    case FileArray(files) => Some(files)
    case ChangeEvent(fileList) => fileList
    case NoEvent => None
  }

  /** Normalising the list normFile produced, handed back as an array, changes nothing. */
  lemma NormFileIdempotent(e: UploadEvent)
    requires NormFile(e).Some?
    ensures NormFile(FileArray(NormFile(e).value)) == NormFile(e)
  {
  }

  /** The five options of the category select. */
  datatype Category = Electronics | Clothing | Home | Beauty | Sports

  function CategoryValue(c: Category): string {
    match c
    case Electronics => "electronics"
    case Clothing => "clothing"
    case Home => "home"
    case Beauty => "beauty"
    case Sports => "sports"
  }

  /** One row of the specifications list. */
  datatype Specification = Specification(key: Option<string>, value: Option<string>)

  /** The values the form collects; a field left empty is None. */
  datatype ProductValues = ProductValues(
    name: Option<string>,
    description: Option<string>,
    longDescription: Option<string>,
    price: Option<nat>,
    oldPrice: Option<nat>,
    stock: Option<nat>,
    category: Option<Category>,
    brand: Option<string>,
    weight: Option<nat>,
    dimensions: Option<string>,
    specifications: Option<seq<Specification>>,
    image: Option<seq<UploadFile>>,
    additionalImages: Option<seq<UploadFile>>,
    isNew: Option<bool>,
    isPromo: Option<bool>,
    rating: Option<nat>,
    reviewCount: Option<nat>)

  /** The form's `initialValues`. */
  function InitialValues(): ProductValues {
    ProductValues(None, None, None, None, None, None, None, None, None, None, None, None, None,
                  Some(false), Some(false), Some(0), Some(0))
  }

  /** The product sent to `createProduct`. */
  datatype ProductPayload = ProductPayload(
    name: Option<string>,
    description: Option<string>,
    price: Option<nat>,
    stock: Option<nat>,
    category: Option<string>,
    brand: Option<string>,
    weight: Option<nat>,
    dimensions: Option<string>,
    specifications: Option<seq<Specification>>,
    longDescription: Option<string>,
    isNew: bool,
    isPromo: bool,
    oldPrice: Option<nat>,
    rating: nat,
    reviewCount: nat,
    image: Option<File>,
    additionalImages: Option<seq<Option<File>>>)

  /** `values.image?.[0]?.originFileObj`. */
  function FirstFile(files: Option<seq<UploadFile>>): (r: Option<File>)
    ensures files.Some? && |files.value| > 0 ==> r == files.value[0].originFileObj
    ensures files.None? || files.value == [] ==> r == None
  {
    if files.Some? && |files.value| > 0 then files.value[0].originFileObj else None
  }

  /** `files.map(file => file.originFileObj)`. */
  function OriginFiles(files: seq<UploadFile>): (r: seq<Option<File>>)
    ensures |r| == |files|
    ensures forall i :: 0 <= i < |files| ==> r[i] == files[i].originFileObj
  {
    if files == [] then [] else [files[0].originFileObj] + OriginFiles(files[1..])
  }

  /** `x || false` on an optional boolean. */
  function OrFalse(b: Option<bool>): bool {
    b == Some(true)
  }

  /** `x || 0` on an optional number: absent and 0 both give 0. */
  function OrZero(n: Option<nat>): nat {
    n.GetOr(0)
  }

  /**
   * The `productData` literal of onFinish: a falsy isNew/isPromo becomes
   * false and a falsy rating/reviewCount becomes 0, `image` is the first
   * upload's file, `additionalImages` maps every upload to its file, the
   * category is the selected option's value, and every other field is copied.
   */
  function BuildPayload(v: ProductValues): (p: ProductPayload)
    ensures p.isNew <==> v.isNew == Some(true)
    ensures p.isPromo <==> v.isPromo == Some(true)
    ensures v.rating.Some? ==> p.rating == v.rating.value
    ensures v.rating.None? ==> p.rating == 0
    ensures v.reviewCount.Some? ==> p.reviewCount == v.reviewCount.value
    ensures v.reviewCount.None? ==> p.reviewCount == 0
    ensures p.image == FirstFile(v.image)
    ensures v.additionalImages.None? <==> p.additionalImages.None?
    ensures v.additionalImages.Some? ==>
              && |p.additionalImages.value| == |v.additionalImages.value|
              && forall i :: 0 <= i < |v.additionalImages.value| ==>
                   p.additionalImages.value[i] == v.additionalImages.value[i].originFileObj
    ensures v.category.None? <==> p.category.None?
    ensures v.category.Some? ==> p.category == Some(CategoryValue(v.category.value))
    ensures p.name == v.name && p.description == v.description && p.longDescription == v.longDescription
    ensures p.price == v.price && p.oldPrice == v.oldPrice && p.stock == v.stock
    ensures p.brand == v.brand && p.weight == v.weight && p.dimensions == v.dimensions
    ensures p.specifications == v.specifications
  {
    ProductPayload(
      name := v.name,
      description := v.description,
      price := v.price,
      stock := v.stock,
      category := if v.category.Some? then Some(CategoryValue(v.category.value)) else None,
      brand := v.brand,
      weight := v.weight,
      dimensions := v.dimensions,
      specifications := v.specifications,
      longDescription := v.longDescription,
      isNew := OrFalse(v.isNew),
      isPromo := OrFalse(v.isPromo),
      oldPrice := v.oldPrice,
      rating := OrZero(v.rating),
      reviewCount := OrZero(v.reviewCount),
      image := FirstFile(v.image),
      additionalImages := if v.additionalImages.Some? then Some(OriginFiles(v.additionalImages.value)) else None)
  }

  /**
   * The defaults of the payload agree with the form's initial values: a form
   * whose flags, rating and review count were never touched and one where
   * they were left at their initial values give the same payload.
   */
  lemma PayloadDefaultsMatchInitialValues(v: ProductValues)
    ensures var untouched := v.(isNew := None, isPromo := None, rating := None, reviewCount := None);
            var initial := v.(isNew := InitialValues().isNew, isPromo := InitialValues().isPromo,
                              rating := InitialValues().rating, reviewCount := InitialValues().reviewCount);
            BuildPayload(untouched) == BuildPayload(initial)
  {
  }

  predicate KeysFilled(specs: Option<seq<Specification>>) {
    specs.None? || forall i :: 0 <= i < |specs.value| ==> Filled(specs.value[i].key)
  }

  predicate ValuesFilled(specs: Option<seq<Specification>>) {
    specs.None? || forall i :: 0 <= i < |specs.value| ==> Filled(specs.value[i].value)
  }

  /** Every specification row has both its key and its value. */
  predicate SpecificationsComplete(specs: Option<seq<Specification>>) {
    KeysFilled(specs) && ValuesFilled(specs)
  }

  /** The rules of the product form, each with the message it shows. */
  datatype ProductRule =
    | NameRequired | DescriptionRequired | PriceRequired | StockRequired | CategoryRequired
    | SpecificationKeyRequired | SpecificationValueRequired | ImageRequired

  function Message(rule: ProductRule): string {
    match rule
    case NameRequired => "Veuillez entrer le nom du produit"
    case DescriptionRequired => "Veuillez entrer une description"
    case PriceRequired => "Veuillez entrer le prix"
    case StockRequired => "Veuillez entrer le stock"
    case CategoryRequired => "Veuillez sélectionner une catégorie"
    case SpecificationKeyRequired => "Clé manquante"
    case SpecificationValueRequired => "Valeur manquante"
    case ImageRequired => "Veuillez télécharger une image"
  }

  /** The rules in the order of the form's fields. */
  const AllRules: seq<ProductRule> := [NameRequired, DescriptionRequired, PriceRequired, StockRequired,
    CategoryRequired, SpecificationKeyRequired, SpecificationValueRequired, ImageRequired]

  lemma AllRulesListed()
    ensures forall rule :: rule in AllRules
  {
    forall rule ensures rule in AllRules {
      match rule
      case NameRequired =>
      case DescriptionRequired =>
      case PriceRequired =>
      case StockRequired =>
      case CategoryRequired =>
      case SpecificationKeyRequired =>
      case SpecificationValueRequired =>
      case ImageRequired =>
    }
  }

  /** Whether `rule` refuses the values: its field is missing. */
  predicate Fails(v: ProductValues, rule: ProductRule) {
    match rule
    case NameRequired => !Filled(v.name)
    case DescriptionRequired => !Filled(v.description)
    case PriceRequired => v.price.None?
    case StockRequired => v.stock.None?
    case CategoryRequired => v.category.None?
    case SpecificationKeyRequired => !KeysFilled(v.specifications)
    case SpecificationValueRequired => !ValuesFilled(v.specifications)
    case ImageRequired => v.image.None? || v.image.value == []
  }

  function FailingRules(v: ProductValues, rules: seq<ProductRule>): (r: seq<ProductRule>)
    ensures forall rule :: rule in r <==> rule in rules && Fails(v, rule)
  {
    if rules == [] then []
    else (if Fails(v, rules[0]) then [rules[0]] else []) + FailingRules(v, rules[1..])
  }

  /**
   * The rules that fail, in the order of the form: each rule is reported
   * exactly when its field is missing.
   */
  function ProductFormErrors(v: ProductValues): (errors: seq<ProductRule>)
    ensures forall rule :: rule in errors <==> Fails(v, rule)
    ensures NameRequired in errors <==> !Filled(v.name)
    ensures DescriptionRequired in errors <==> !Filled(v.description)
    ensures PriceRequired in errors <==> v.price.None?
    ensures StockRequired in errors <==> v.stock.None?
    ensures CategoryRequired in errors <==> v.category.None?
    ensures SpecificationKeyRequired in errors <==> !KeysFilled(v.specifications)
    ensures SpecificationValueRequired in errors <==> !ValuesFilled(v.specifications)
    ensures ImageRequired in errors <==> v.image.None? || v.image.value == []
  {
    AllRulesListed();
    FailingRules(v, AllRules)
  }

  /** The form calls onFinish only when no rule fails. */
  predicate ProductFormAccepted(v: ProductValues) {
    ProductFormErrors(v) == []
  }

  /**
   * A product form is accepted iff name, description, price, stock, category
   * and an image are present and every specification row is complete.
   */
  lemma ProductFormAcceptedIff(v: ProductValues)
    ensures ProductFormAccepted(v) <==>
              && Filled(v.name) && Filled(v.description)
              && v.price.Some? && v.stock.Some? && v.category.Some?
              && SpecificationsComplete(v.specifications)
              && v.image.Some? && v.image.value != []
  {
    var errors := ProductFormErrors(v);
    if errors != [] {
      assert errors[0] in errors && Fails(v, errors[0]);
    }
  }

  /** Each rule has its own message, so a message names the rule that failed. */
  lemma MessagesDistinct(r1: ProductRule, r2: ProductRule)
    ensures Message(r1) == Message(r2) ==> r1 == r2
  {
  }

  /** The messages of some rules, in their order. */
  function Messages(rules: seq<ProductRule>): (msgs: seq<string>)
    ensures |msgs| == |rules|
    ensures forall i :: 0 <= i < |rules| ==> msgs[i] == Message(rules[i])
  {
    if rules == [] then [] else [Message(rules[0])] + Messages(rules[1..])
  }

  /** A message is among those of some rules iff its rule is. */
  lemma MessageInMessages(rules: seq<ProductRule>, rule: ProductRule)
    ensures Message(rule) in Messages(rules) <==> rule in rules
  {
    var msgs := Messages(rules);
    if Message(rule) in msgs {
      var i :| 0 <= i < |msgs| && msgs[i] == Message(rule);
      MessagesDistinct(rules[i], rule);
    }
    if rule in rules {
      var i :| 0 <= i < |rules| && rules[i] == rule;
      assert msgs[i] == Message(rule);
    }
  }

  /**
   * The messages under one specification row: each row has its own key and
   * value rules, so a row shows "Clé manquante" when its key is missing and
   * "Valeur manquante" when its value is.
   */
  function RowMessages(row: Specification): (msgs: seq<string>)
    ensures Message(SpecificationKeyRequired) in msgs <==> !Filled(row.key)
    ensures Message(SpecificationValueRequired) in msgs <==> !Filled(row.value)
    ensures |msgs| <= 2
  {
    (if Filled(row.key) then [] else [Message(SpecificationKeyRequired)])
    + (if Filled(row.value) then [] else [Message(SpecificationValueRequired)])
  }

  /** A list of rows is complete iff its first row and the rest are. */
  lemma FilledCons(rows: seq<Specification>)
    requires rows != []
    ensures KeysFilled(Some(rows)) <==> Filled(rows[0].key) && KeysFilled(Some(rows[1..]))
    ensures ValuesFilled(Some(rows)) <==> Filled(rows[0].value) && ValuesFilled(Some(rows[1..]))
  {
    if Filled(rows[0].key) && KeysFilled(Some(rows[1..])) {
      forall i | 0 <= i < |rows| ensures Filled(rows[i].key) {
        if i > 0 { assert rows[i] == rows[1..][i - 1]; }
      }
    }
    if Filled(rows[0].value) && ValuesFilled(Some(rows[1..])) {
      forall i | 0 <= i < |rows| ensures Filled(rows[i].value) {
        if i > 0 { assert rows[i] == rows[1..][i - 1]; }
      }
    }
  }

  /** The messages under all the specification rows, row after row. */
  function SpecificationMessages(rows: seq<Specification>): (msgs: seq<string>)
    ensures forall i :: 0 <= i < |msgs| ==>
              msgs[i] == Message(SpecificationKeyRequired) || msgs[i] == Message(SpecificationValueRequired)
    ensures Message(SpecificationKeyRequired) in msgs <==> !KeysFilled(Some(rows))
    ensures Message(SpecificationValueRequired) in msgs <==> !ValuesFilled(Some(rows))
  {
    if rows == [] then []
    else
      var rest := SpecificationMessages(rows[1..]);
      FilledCons(rows);
      RowMessages(rows[0]) + rest
  }

  /** Rows are rendered one after another: their messages concatenate. */
  lemma {:induction false} SpecificationMessagesAppend(a: seq<Specification>, b: seq<Specification>)
    ensures SpecificationMessages(a + b) == SpecificationMessages(a) + SpecificationMessages(b)
  {
    if a == [] {
      assert a + b == b;
    } else {
      assert (a + b)[0] == a[0];
      assert (a + b)[1..] == a[1..] + b;
      SpecificationMessagesAppend(a[1..], b);
    }
  }

  /** n rows with a value but no key show "Clé manquante" n times. */
  lemma {:induction false} KeyMessagePerRow(rows: seq<Specification>)
    requires forall i :: 0 <= i < |rows| ==> !Filled(rows[i].key) && Filled(rows[i].value)
    ensures SpecificationMessages(rows) == seq(|rows|, _ => Message(SpecificationKeyRequired))
  {
    if rows != [] {
      KeyMessagePerRow(rows[1..]);
    }
  }

  function Rows(specs: Option<seq<Specification>>): seq<Specification> {
    if specs.Some? then specs.value else []
  }

  /** The rules attached to the fields above the specification rows, in form order. */
  const FieldRulesAbove: seq<ProductRule> := [NameRequired, DescriptionRequired, PriceRequired, StockRequired, CategoryRequired]

  /** No rule of a list fails iff each of them passes. */
  lemma NoFailingRulesIff(v: ProductValues, rules: seq<ProductRule>)
    ensures FailingRules(v, rules) == [] <==> forall i :: 0 <= i < |rules| ==> !Fails(v, rules[i])
  {
    var failing := FailingRules(v, rules);
    if failing != [] {
      assert failing[0] in failing;
    } else {
      forall i | 0 <= i < |rules|
        ensures !Fails(v, rules[i])
      {
        assert rules[i] in rules;
      }
    }
  }

  /** No message is shown by any of the three parts of the form iff the form is accepted. */
  lemma NoMessagesIff(v: ProductValues)
    ensures && Messages(FailingRules(v, FieldRulesAbove)) == []
            && SpecificationMessages(Rows(v.specifications)) == []
            && Messages(FailingRules(v, [ImageRequired])) == []
            <==> ProductFormAccepted(v)
  {
    AboveSilentIff(v);
    RowsSilentIff(v.specifications);
    NoFailingRulesIff(v, [ImageRequired]);
    ProductFormAcceptedIff(v);
  }

  /** The fields above the specification list show nothing iff they are all present. */
  lemma AboveSilentIff(v: ProductValues)
    ensures FailingRules(v, FieldRulesAbove) == [] <==>
              Filled(v.name) && Filled(v.description) && v.price.Some? && v.stock.Some? && v.category.Some?
  {
    NoFailingRulesIff(v, FieldRulesAbove);
    assert FieldRulesAbove[0] == NameRequired && FieldRulesAbove[1] == DescriptionRequired;
    assert FieldRulesAbove[2] == PriceRequired && FieldRulesAbove[3] == StockRequired;
    assert FieldRulesAbove[4] == CategoryRequired;
  }

  /** The specification rows show nothing iff every row has its key and its value. */
  lemma RowsSilentIff(specs: Option<seq<Specification>>)
    ensures SpecificationMessages(Rows(specs)) == [] <==> SpecificationsComplete(specs)
  {
    var rows := SpecificationMessages(Rows(specs));
    if rows != [] {
      assert rows[0] in rows;
    }
  }


  /**
   * The messages the form shows, top to bottom: those of the fields above
   * the specification list, those of each row in row order, and the image's.
   */
  function ShownMessages(v: ProductValues): (msgs: seq<string>)
    ensures msgs == [] <==> ProductFormAccepted(v)
  {
    NoMessagesIff(v);
    Messages(FailingRules(v, FieldRulesAbove))
    + SpecificationMessages(Rows(v.specifications))
    + Messages(FailingRules(v, [ImageRequired]))
  }

  /** A rule's message is shown exactly when the rule fails. */
  lemma MessageShownIff(v: ProductValues, rule: ProductRule)
    ensures Message(rule) in ShownMessages(v) <==> Fails(v, rule)
  {
    var above := Messages(FailingRules(v, FieldRulesAbove));
    var rows := SpecificationMessages(Rows(v.specifications));
    var image := Messages(FailingRules(v, [ImageRequired]));
    assert ShownMessages(v) == above + rows + image;
    MessageInMessages(FailingRules(v, FieldRulesAbove), rule);
    MessageInMessages(FailingRules(v, [ImageRequired]), rule);
    if rule == SpecificationKeyRequired || rule == SpecificationValueRequired {
      assert Rows(v.specifications) == [] ==> KeysFilled(v.specifications) && ValuesFilled(v.specifications);
    } else {
      if Message(rule) in rows {
        var i :| 0 <= i < |rows| && rows[i] == Message(rule);
        MessagesDistinct(rule, SpecificationKeyRequired);
        MessagesDistinct(rule, SpecificationValueRequired);
      }
    }
  }

  /**
   * What the backend receives from an accepted form: the required fields are
   * present, the category is one of the five option values, and the image is
   * the file of the first upload.
   */
  lemma AcceptedPayload(v: ProductValues)
    requires ProductFormAccepted(v)
    ensures var p := BuildPayload(v);
            && Filled(p.name) && Filled(p.description) && p.price.Some? && p.stock.Some?
            && p.category.Some?
            && p.category.value in {"electronics", "clothing", "home", "beauty", "sports"}
            && p.image == v.image.value[0].originFileObj
  {
  }

  /**
   * After `createProduct`: the created product's id when the call resolved
   * (the page then navigates to `/products/<id>`), nothing when it threw.
   */
  function PathAfterCreate(created: Option<string>): (path: Option<string>)
    ensures created.Some? <==> path.Some?
    ensures created.Some? ==> path.value == "/products/" + created.value
  {
    if created.Some? then Some("/products/" + created.value) else None
  }
}
