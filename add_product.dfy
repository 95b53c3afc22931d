/**
 * The add-product page: the comma-separated tags field turned into a tag
 * list, and the submit sequence that reports the outcome and, on success,
 * resets the form to its defaults.
 */
module AddProduct {
  import opened Basics
  import opened Text

  /** One tag as sent: the piece trimmed and lower-cased. */
  function Tag(piece: string): string {
    Lower(Strip(piece, JavaScript))
  }

  /** `tags.split(',').map(tag => tag.trim().toLowerCase())` */
  function ParseTags(tags: string): (r: seq<string>)
    ensures |r| == |Split(tags, ',')| == Occurrences(tags, ',') + 1
    ensures forall i :: 0 <= i < |r| ==> r[i] == Tag(Split(tags, ',')[i])
  {
    SplitShape(tags, ',');
    var pieces := Split(tags, ',');
    seq(|pieces|, i requires 0 <= i < |pieces| => Tag(pieces[i]))
  }

  /** A tag has no comma and no whitespace at either end, and is already lower-case. */
  predicate Normal(tag: string) {
    && ',' !in tag
    && (tag == [] || (!IsSpace(tag[0], JavaScript) && !IsSpace(tag[|tag| - 1], JavaScript)))
    && Lower(tag) == tag
  }

  lemma TagIsNormal(piece: string)
    requires ',' !in piece
    ensures Normal(Tag(piece))
  {
    var t := Strip(piece, JavaScript);
    LowerKeepsNonLetters(t, JavaScript);
    LowerIdempotent(t);
  }

  /** Every parsed tag is normal, and the empty field gives the single tag "". */
  lemma ParsedTagsAreNormal(tags: string)
    ensures forall i :: 0 <= i < |ParseTags(tags)| ==> Normal(ParseTags(tags)[i])
    ensures tags == "" ==> ParseTags(tags) == [""]
  {
    var pieces := Split(tags, ',');
    SplitShape(tags, ',');
    forall i | 0 <= i < |pieces|
      ensures Normal(ParseTags(tags)[i])
    {
      TagIsNormal(pieces[i]);
    }
    if tags == "" {
      assert Occurrences(tags, ',') == 0;
      assert Tag("") == "" by { assert Strip("", JavaScript) == ""; }
    }
  }

  /** A normal tag is its own tag. */
  lemma NormalTagFixed(tag: string)
    requires Normal(tag)
    ensures Tag(tag) == tag
  {
    StripTrimmed(tag, JavaScript);
  }

  /** Normal tags written back with commas parse to themselves. */
  lemma ParseNormalTags(tags: seq<string>)
    requires |tags| > 0 && forall i :: 0 <= i < |tags| ==> Normal(tags[i])
    ensures ParseTags(Join(tags, ',')) == tags
  {
    var joined := Join(tags, ',');
    SplitJoin(tags, ',');
    var again := ParseTags(joined);
    forall i | 0 <= i < |tags|
      ensures again[i] == tags[i]
    {
      NormalTagFixed(tags[i]);
    }
  }

  /** Parsing is idempotent: writing the parsed tags back with commas and parsing again gives the same tags. */
  lemma ParseTagsIdempotent(tags: string)
    ensures ParseTags(Join(ParseTags(tags), ',')) == ParseTags(tags)
  {
    ParsedTagsAreNormal(tags);
    ParseNormalTags(ParseTags(tags));
  }

  // ------------------------------------------------------------ the form

  const DefaultCategory: string := "fertilizer"
  const DefaultStock: int := 100
  const AddFailed: string := "Could not add product."

  /**
   * The product posted to the marketplace. `price` is `parseFloat` of the
   * price input, given as a parameter: `None` is NaN, which the JSON body
   * carries as null.
   */
  datatype Product = Product(name: string, brand: string, price: Option<real>, category: string,
                             description: string, tags: seq<string>, imageUrl: string, stock: int)

  /** The form's input fields. */
  datatype Fields = Fields(name: string, brand: string, price: string, category: string,
                           description: string, tags: string, imageUrl: string, stock: int)

  /** The initial inputs, to which a successful submit resets the form. */
  const Blank: Fields := Fields("", "", "", DefaultCategory, "", "", "", DefaultStock)

  /** The product a submit posts for the given inputs, with `parsedPrice` the parsed price input. */
  function ProductOf(f: Fields, parsedPrice: Option<real>): (p: Product)
    ensures p.tags == ParseTags(f.tags)
    ensures p.price == parsedPrice
    ensures p.name == f.name && p.brand == f.brand && p.category == f.category
    ensures p.description == f.description && p.imageUrl == f.imageUrl && p.stock == f.stock
  {
    Product(f.name, f.brand, parsedPrice, f.category, f.description, ParseTags(f.tags), f.imageUrl, f.stock)
  }

  /** What the post of the product comes back with. */
  datatype SubmitReply = Added | SubmitFailed(serverError: Option<string>)

  class ProductForm {
    var fields: Fields
    var message: string
    var error: string
    var loading: bool

    constructor()
      ensures fields == Blank && message == "" && error == "" && !loading
    {
      fields, message, error, loading := Blank, "", "", false;
    }

    /**
     * handleSubmit. Message and error are cleared and loading set; the
     * product built from the fields and the parsed price is posted; on success the message names
     * the product and the form is reset, on failure the server's error or the
     * fixed text is shown and the fields are kept. Loading ends on every path.
     */
    method Submit(parsedPrice: Option<real>, reply: SubmitReply) returns (sent: Product)
      modifies this
      ensures sent == ProductOf(old(fields), parsedPrice)
      ensures !loading
      ensures reply == Added ==>
        fields == Blank && message == "Successfully added " + old(fields).name + "!" && error == ""
      ensures reply.SubmitFailed? ==>
        && fields == old(fields) && message == ""
        && error == (if reply.serverError.Some? && reply.serverError.value != "" then reply.serverError.value else AddFailed)
    {
      loading := true;
      message := "";
      error := "";
      sent := ProductOf(fields, parsedPrice);
      match reply {
        case Added =>
          message := "Successfully added " + fields.name + "!";
          fields := Blank;
        case SubmitFailed(e) =>
          error := if e.Some? && e.value != "" then e.value else AddFailed;
      }
      loading := false;
    }
  }
}
