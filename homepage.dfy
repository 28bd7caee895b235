/** The page-level content document of `website/src/pages/homepage.rs`: `HomepageData`
    holding blocks with ids, its constructor and the seed content used when nothing valid
    is stored. */
module Homepage {
  import Blocks

  /** The persisted document for one route; the order of `blocks` is the render order. */
  datatype HomepageData = HomepageData(blocks: seq<Blocks.BlockWithId>)

  /** `HomepageData::new`: wraps the blocks verbatim, in order. */
  function New(blocks: seq<Blocks.BlockWithId>): (d: HomepageData)
    ensures |d.blocks| == |blocks|
    ensures forall i :: 0 <= i < |blocks| ==> d.blocks[i] == blocks[i]
  {
    HomepageData(blocks)
  }

  const HeaderSeedId: string := "550e8400-e29b-41d4-a716-446655440001"
  const HeroSeedId: string := "550e8400-e29b-41d4-a716-446655440002"

  /** The seed document: a header then a hero, each under its fixed id. */
  function DefaultBlocks(): (bs: seq<Blocks.BlockWithId>)
    ensures |bs| == 2 && bs != []
    ensures bs[0].block.Header? && bs[1].block.Hero?
    ensures bs[0].id == HeaderSeedId && bs[1].id == HeroSeedId
    ensures bs[0].id != bs[1].id
    ensures bs[0].block.header.headline == "Eng Manager"
    ensures bs[0].block.header.button.href == "/contact"
    ensures bs[0].block.header.button.text == "Get in touch"
    ensures bs[0].block.header.button.ariaLabel == "Contact us to discuss your engineering needs"
    ensures bs[1].block.hero.headline == "Building world-class engineering teams"
    ensures bs[1].block.hero.subheadline == "Leadership through example, expertise, and empathy"
  {
    assert HeaderSeedId[35] != HeroSeedId[35];
    [ Blocks.BlockWithId(
        HeaderSeedId,
        Blocks.Header(Blocks.HeaderProps(
          "Eng Manager",
          Blocks.ButtonProps("/contact", "Get in touch",
                             "Contact us to discuss your engineering needs")))),
      Blocks.BlockWithId(
        HeroSeedId,
        Blocks.Hero(Blocks.HeroProps(
          "Building world-class engineering teams",
          "Leadership through example, expertise, and empathy"))) ]
  }

  /** The payloads of a document with the ids dropped, order kept. */
  function StripIds(bs: seq<Blocks.BlockWithId>): (r: seq<Blocks.Block>)
    ensures |r| == |bs|
    ensures forall i :: 0 <= i < |bs| ==> r[i] == bs[i].block
  {
    if bs == [] then [] else [bs[0].block] + StripIds(bs[1..])
  }

  /** The seed with ids carries exactly the legacy id-less seed of `core/block.rs`. */
  lemma DefaultBlocksMatchLegacy()
    ensures StripIds(DefaultBlocks()) == Blocks.DefaultBlocks()
  {
  }
}
