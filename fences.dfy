/** Pulling a structured payload out of free model text, as the requirements analyst
    and the compliance checker both do: a ```json block if there is one, else the
    first ``` block, else the whole (stripped) text; then decoding it. */
module Fences {
  import opened Wrappers
  import opened Text
  import opened Json

  const JsonFence: string := "```json"
  const Fence: string := "```"

  /** `text.split(opening)[1].split("```")[0]`. */
  function FenceBody(text: string, opening: string): string
    requires Contains(text, opening)
  {
    Before(Before(After(text, opening), opening), Fence)
  }

  /** The candidate payload of an already stripped response text. */
  function Payload(text: string): string {
    if Contains(text, JsonFence) then FenceBody(text, JsonFence)
    else if Contains(text, Fence) then FenceBody(text, Fence)
    else text
  }

  /** `json.loads` applied to the payload of the stripped response; `None` stands for
      the `JSONDecodeError` the agents catch. */
  function DecodeResponse(responseText: string, decode: Decoder): Option<Json> {
    decode(Payload(Strip(responseText)))
  }

  /** A fenced payload is the text right after the opening fence, up to (not including)
      the next ``` or the end of the text; it never contains ``` itself. */
  lemma {:induction false} FenceBodyIsBlock(text: string, opening: string)
    requires opening == JsonFence || opening == Fence
    requires Contains(text, opening)
    ensures var rest := After(text, opening);
            var body := FenceBody(text, opening);
            && body <= rest
            && (forall k :: !OccursAt(body, Fence, k))
            && (body == rest || OccursAt(rest, Fence, |body|))
  {
    var rest := After(text, opening);
    var upto := Before(rest, opening);
    var body := Before(upto, Fence);
    assert upto <= rest;
    if body != upto {
      assert OccursAt(upto, Fence, |body|);
      PrefixOccurrences(rest, |upto|, Fence);
      assert upto == rest[..|upto|];
    } else if upto != rest {
      assert OccursAt(rest, opening, |upto|);
      assert rest[|upto|..|upto| + |Fence|] == rest[|upto|..|upto| + |opening|][..|Fence|];
    }
  }

  /** Without any ``` in the response, the whole stripped text is the payload. */
  lemma UnfencedPayloadIsText(text: string)
    requires !Contains(text, Fence)
    ensures Payload(text) == text
  {
    if Contains(text, JsonFence) {
      var i := Find(text, JsonFence).value;
      assert text[i..i + |Fence|] == text[i..i + |JsonFence|][..|Fence|];
      assert OccursAt(text, Fence, i);
    }
  }
}
