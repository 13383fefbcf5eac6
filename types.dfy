/** The records of `types.ts`. */
module Types {
  /** The structured text of a marketing kit, as parsed from the remote model's JSON reply. */
  datatype MarketingKitText = MarketingKitText(productName: string, productDescription: string, adCopy: string)

  /** A complete marketing kit: its text and its promotional images (data URLs). */
  datatype MarketingKitData = MarketingKitData(text: MarketingKitText, visuals: seq<string>)
}
