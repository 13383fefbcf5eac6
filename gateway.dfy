/**
 * The boundary to the remote generative model. Nothing behind it is modelled: every remote call
 * is represented by the outcome it delivers, supplied to the model from outside, and by the
 * request the local code sends, which the service operations record in order.
 */
module Gateway {
  import opened Options
  import opened Prompts

  /** What one awaited remote call delivers: a value, or a rejected promise. */
  datatype Outcome<+T> = Success(value: T) | Failure

  /** A request sent to the remote model; its prompt text is `Text(prompt)`. */
  datatype Request =
    | GenerateImages(prompt: Prompt, count: nat)
      // image generation; `count` is `numberOfImages`
    | DescribeImage(data: Option<string>, mimeType: string, instruction: Prompt)
      // image analysis over inline base64 data (undefined when the data URL had no comma) with a text instruction
    | GenerateKitText(prompt: Prompt)
      // structured text generation for the marketing kit
}
