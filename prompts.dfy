/**
 * Building a research prompt from a template (index.js:232-241 for phase 1,
 * 265-274 for phase 2): every `[PRODUCT]` becomes the product name, then every
 * `[NICHE]` becomes the niche (or "this market" when the job has none), and a
 * non-empty product description is appended as a final paragraph.
 */
module Prompts {
  import opened Strings

  const ProductToken := "[PRODUCT]"
  const NicheToken := "[NICHE]"
  const DefaultNiche := "this market"
  const DescriptionLabel := "\n\nProduct description: "

  /** `job.niche || 'this market'`; the empty string stands for every falsy niche. */
  function NicheText(niche: string): (r: string)
    ensures r != ""
    ensures niche != "" ==> r == niche
    ensures niche == "" ==> r == "this market"
  {
    if niche != "" then niche else DefaultNiche
  }

  /** The two replacement passes, `[PRODUCT]` first and `[NICHE]` second. */
  function Substitute(template: string, productName: string, niche: string): string {
    ReplaceAll(ReplaceAll(template, ProductToken, productName), NicheToken, NicheText(niche))
  }

  /** The final prompt handed to the research service. */
  function BuildPrompt(template: string, productName: string, niche: string, description: string): string {
    var body := Substitute(template, productName, niche);
    if description != "" then body + DescriptionLabel + description else body
  }

  /** The description paragraph the prompt ends with: none when the description is falsy. */
  function DescriptionParagraph(description: string): string {
    if description != "" then DescriptionLabel + description else ""
  }

  /*
   * A template seen as text interleaved with slots. `Render` is the template
   * as written; `Fill` is the prompt it is meant to produce.
   */
  datatype Piece = Text(text: string) | ProductSlot | NicheSlot

  function PieceText(piece: Piece): string {
    match piece
    case Text(t) => t
    case ProductSlot => ProductToken
    case NicheSlot => NicheToken
  }

  function Render(ps: seq<Piece>): string {
    if ps == [] then "" else PieceText(ps[0]) + Render(ps[1..])
  }

  function Fill(ps: seq<Piece>, productName: string, niche: string): string {
    if ps == [] then ""
    else
      var head := match ps[0]
        case Text(t) => t
        case ProductSlot => productName
        case NicheSlot => niche;
      head + Fill(ps[1..], productName, niche)
  }

  /** Every text piece is free of `[`, the character both tokens start with. */
  predicate PlainText(ps: seq<Piece>) {
    forall i :: 0 <= i < |ps| && ps[i].Text? ==> '[' !in ps[i].text
  }

  /** Every `slot` piece turned into the text `value`. */
  function Assign(ps: seq<Piece>, slot: Piece, value: string): (r: seq<Piece>)
    ensures |r| == |ps|
    ensures PlainText(ps) && '[' !in value ==> PlainText(r)
    ensures forall i :: 0 <= i < |ps| ==> r[i] == (if ps[i] == slot then Text(value) else ps[i])
  {
    if ps == [] then []
    else [if ps[0] == slot then Text(value) else ps[0]] + Assign(ps[1..], slot, value)
  }

  /** One replacement pass fills exactly the slots of one kind. */
  lemma {:induction false} ReplacePass(ps: seq<Piece>, slot: Piece, value: string)
    requires slot == ProductSlot || slot == NicheSlot
    requires PlainText(ps)
    ensures ReplaceAll(Render(ps), PieceText(slot), value) == Render(Assign(ps, slot, value))
  {
    var token := PieceText(slot);
    if ps == [] {
      assert ReplaceAll("", token, value) == "";
    } else {
      var rest := Render(ps[1..]);
      assert PlainText(ps[1..]) by {
        forall i | 0 <= i < |ps[1..]| && ps[1..][i].Text?
          ensures '[' !in ps[1..][i].text
        {
          assert ps[1..][i] == ps[i + 1];
        }
      }
      ReplacePass(ps[1..], slot, value);
      var filled := Assign(ps, slot, value);
      assert filled[1..] == Assign(ps[1..], slot, value);
      match ps[0]
      case Text(t) =>
        assert '[' !in t;
        ReplaceSkips(t, rest, token, value);
      case ProductSlot =>
        if slot == ProductSlot {
          ReplaceAtFront(token, value, rest);
        } else {
          assert ProductToken[1] != NicheToken[1];
          ReplaceSkipsMismatch(ProductToken, rest, token, value, 1);
        }
      case NicheSlot =>
        if slot == NicheSlot {
          ReplaceAtFront(token, value, rest);
        } else {
          assert NicheToken[1] != ProductToken[1];
          ReplaceSkipsMismatch(NicheToken, rest, token, value, 1);
        }
    }
  }

  lemma {:induction false} FillIsDoubleAssign(ps: seq<Piece>, productName: string, niche: string)
    ensures Render(Assign(Assign(ps, ProductSlot, productName), NicheSlot, niche)) == Fill(ps, productName, niche)
  {
    if ps != [] {
      var once := Assign(ps, ProductSlot, productName);
      assert once[1..] == Assign(ps[1..], ProductSlot, productName);
      var twice := Assign(once, NicheSlot, niche);
      assert twice[1..] == Assign(once[1..], NicheSlot, niche);
      FillIsDoubleAssign(ps[1..], productName, niche);
    }
  }

  /**
   * For a template whose text holds no `[` outside its slots, and a product
   * name without `[`, the built prompt is the template with every slot
   * filled, followed by the description paragraph. The niche may hold any
   * text: the last pass inserts it without scanning it again.
   */
  lemma {:induction false} PromptFillsTemplate(ps: seq<Piece>, productName: string, niche: string, description: string)
    requires PlainText(ps) && '[' !in productName
    ensures BuildPrompt(Render(ps), productName, niche, description)
         == Fill(ps, productName, NicheText(niche)) + DescriptionParagraph(description)
  {
    var nicheText := NicheText(niche);
    ReplacePass(ps, ProductSlot, productName);
    var once := Assign(ps, ProductSlot, productName);
    ReplacePass(once, NicheSlot, nicheText);
    FillIsDoubleAssign(ps, productName, nicheText);
    var body := Substitute(Render(ps), productName, niche);
    assert body == Fill(ps, productName, nicheText);
    if description != "" {
      assert body + DescriptionLabel + description == body + (DescriptionLabel + description);
    } else {
      assert body + "" == body;
    }
  }

  /**
   * The `[PRODUCT]` pass runs first, so the product name itself goes through
   * the `[NICHE]` pass: a `[NICHE]` inside it is replaced by the niche.
   */
  lemma ProductPassRunsFirst(productName: string, niche: string)
    ensures Substitute(ProductToken, productName, niche) == ReplaceAll(productName, NicheToken, NicheText(niche))
  {
    ReplaceAtFront(ProductToken, productName, "");
    assert ProductToken + "" == ProductToken;
    assert ReplaceAll("", ProductToken, productName) == "";
    assert productName + "" == productName;
  }
}
