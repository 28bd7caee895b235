/** The block content model of `website/src/core/block.rs`: the props records, the closed
    `Block` union, and the legacy id-less `HomepageData` with its seed content. */
module Blocks {

  /** A call-to-action link; owned by the header that contains it. */
  datatype ButtonProps = ButtonProps(href: string, text: string, ariaLabel: string)

  /** Header payload: a headline and exactly one button. */
  datatype HeaderProps = HeaderProps(headline: string, button: ButtonProps)

  /** Hero payload: a headline and a supporting line. */
  datatype HeroProps = HeroProps(headline: string, subheadline: string)

  /** The closed set of block kinds; every consumer matches on exactly these two. */
  datatype Block = Header(header: HeaderProps) | Hero(hero: HeroProps)

  /** A block paired with its identifier. The value of `id` is not checked: any string,
      including the empty one, is accepted. */
  datatype BlockWithId = BlockWithId(id: string, block: Block)

  /** The legacy, id-less homepage document. */
  datatype HomepageData = HomepageData(blocks: seq<Block>)

  /** `HomepageData::new`: wraps the blocks as given. */
  function New(blocks: seq<Block>): (d: HomepageData)
    ensures |d.blocks| == |blocks|
    ensures forall i :: 0 <= i < |blocks| ==> d.blocks[i] == blocks[i]
  {
    HomepageData(blocks)
  }

  /** The legacy seed content: one header, then one hero. */
  function DefaultBlocks(): (bs: seq<Block>)
    ensures |bs| == 2
    ensures bs[0].Header? && bs[1].Hero?
    ensures bs[0].header.headline == "Eng Manager"
    ensures bs[0].header.button.href == "/contact"
    ensures bs[0].header.button.text == "Get in touch"
    ensures bs[0].header.button.ariaLabel == "Contact us to discuss your engineering needs"
    ensures bs[1].hero.headline == "Building world-class engineering teams"
    ensures bs[1].hero.subheadline == "Leadership through example, expertise, and empathy"
  {
    [ Header(HeaderProps("Eng Manager",
                         ButtonProps("/contact", "Get in touch",
                                     "Contact us to discuss your engineering needs"))),
      Hero(HeroProps("Building world-class engineering teams",
                     "Leadership through example, expertise, and empathy")) ]
  }
}
