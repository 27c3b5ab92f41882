/**
 * Chat messages as the browser clients hold them, the user message that
 * `handleSend` builds, the merge of a streamed delta into the assistant
 * message, and the text/image extraction of the message bubble.
 */
module Messages {
  import opened Wrappers
  import opened Text

  datatype Role = User | Assistant | System

  /** One element of a multi-part content array. */
  datatype Part = TextPart(text: string) | ImagePart(url: string)

  /** A message's `content`: absent/null, a string, or an array of parts. */
  datatype Content = NoContent | Str(s: string) | Parts(parts: seq<Part>)

  datatype Message = Message(role: Role, content: Content, model: Option<string>)

  /** The placeholder name of a conversation that has not been named yet. */
  const NewConversation: string := "New Conversation"

  /** The text sent for naming a conversation whose first message has only images. */
  const ImageMessage: string := "Image message"

  const JpegDataPrefix: string := "data:image/jpeg;base64,"

  // ---------------------------------------------------------------------
  // The user message of `handleSend`
  // ---------------------------------------------------------------------

  /**
   * The part for one attached image: the segment after the first comma of
   * its data URL, re-labelled as JPEG. A URL without a comma has no second
   * segment, and the template literal then prints `undefined`.
   */
  function ImagePartOf(image: string): Part
  {
    var pieces := Split(image, ',');
    ImagePart(JpegDataPrefix + (if |pieces| >= 2 then pieces[1] else "undefined"))
  }

  function ImageParts(images: seq<string>): (ps: seq<Part>)
    ensures |ps| == |images|
    ensures forall k :: 0 <= k < |images| ==> ps[k] == ImagePartOf(images[k])
  {
    if |images| == 0 then [] else [ImagePartOf(images[0])] + ImageParts(images[1..])
  }

  /** `text` is `message.text || ''`; `images` is `[]` when absent. */
  function UserMessage(text: string, images: seq<string>, model: string): Message
  {
    if |images| > 0 then Message(User, Parts([TextPart(text)] + ImageParts(images)), Some(model))
    else Message(User, Str(text), Some(model))
  }

  /** A data URL `header,payload` whose payload has no comma is re-labelled with the payload kept. */
  lemma ImagePartKeepsPayload(header: string, payload: string)
    requires ',' !in header && ',' !in payload
    ensures ImagePartOf(header + [','] + payload) == ImagePart(JpegDataPrefix + payload)
  {
    SplitNoSeparator(header, ',');
    SplitNoSeparator(payload, ',');
    var rest := [','] + payload;
    assert Split(rest, ',') == [""] + Split(payload, ',') by {
      assert rest[1..] == payload;
    }
    SplitAppend(header, rest, ',');
    assert header + [','] + payload == header + rest;
  }

  // ---------------------------------------------------------------------
  // Delta merge
  // ---------------------------------------------------------------------

  /**
   * The merge of `processStreamChunk` in the typed client: string content
   * gets the delta appended, any other content is replaced by it. The
   * untyped client writes `content += delta`, which is the same on strings.
   */
  function MergeDelta(c: Content, delta: string): Content
  {
    if c.Str? then Str(c.s + delta) else Str(delta)
  }

  function MergeAll(c: Content, deltas: seq<string>): Content
  {
    if |deltas| == 0 then c else MergeDelta(MergeAll(c, deltas[..|deltas| - 1]), deltas[|deltas| - 1])
  }

  lemma MergeAllStep(c: Content, deltas: seq<string>, d: string)
    ensures MergeAll(c, deltas + [d]) == MergeDelta(MergeAll(c, deltas), d)
  {
    assert (deltas + [d])[..|deltas|] == deltas;
  }

  /** After at least one delta the content is a string: the old text (if a string) followed by all deltas. */
  lemma {:induction false} MergeAllConcatenates(c: Content, deltas: seq<string>)
    requires |deltas| > 0 || c.Str?
    ensures MergeAll(c, deltas) == Str((if c.Str? then c.s else "") + Concat(deltas))
  {
    if |deltas| == 0 {
    } else if |deltas| == 1 {
      assert deltas[..0] == [];
      assert Concat(deltas) == deltas[0];
    } else {
      var init, last := deltas[..|deltas| - 1], deltas[|deltas| - 1];
      MergeAllConcatenates(c, init);
      var before := (if c.Str? then c.s else "") + Concat(init);
      assert MergeAll(c, deltas) == Str(before + last);
      assert Concat(deltas) == Concat(init) + last;
      AppendAssociates(if c.Str? then c.s else "", Concat(init), last);
    }
  }

  lemma AppendAssociates(a: string, b: string, c: string)
    ensures (a + b) + c == a + (b + c)
  {
  }
}

/** Text and image extraction of the message bubble. */
module MessageBubble {
  import opened Messages

  datatype Shown = Shown(text: string, images: seq<string>)

  ghost predicate NoTextBefore(parts: seq<Part>, k: int)
    requires 0 <= k <= |parts|
  {
    forall j :: 0 <= j < k ==> !parts[j].TextPart?
  }

  /** The text of the first text part, or `''` if there is none. */
  function FirstText(parts: seq<Part>): (t: string)
    ensures NoTextBefore(parts, |parts|) ==> t == ""
    ensures forall k :: 0 <= k < |parts| && parts[k].TextPart? && NoTextBefore(parts, k) ==> t == parts[k].text
  {
    if |parts| == 0 then ""
    else if parts[0].TextPart? then parts[0].text
    else
      var t := FirstText(parts[1..]);
      FirstTextShifts(parts, t);
      t
  }

  lemma FirstTextShifts(parts: seq<Part>, t: string)
    requires |parts| > 0 && !parts[0].TextPart?
    requires NoTextBefore(parts[1..], |parts| - 1) ==> t == ""
    requires forall k :: 0 <= k < |parts| - 1 && parts[1..][k].TextPart? && NoTextBefore(parts[1..], k) ==> t == parts[1..][k].text
    ensures NoTextBefore(parts, |parts|) ==> t == ""
    ensures forall k :: 0 <= k < |parts| && parts[k].TextPart? && NoTextBefore(parts, k) ==> t == parts[k].text
  {
    if NoTextBefore(parts, |parts|) {
      assert NoTextBefore(parts[1..], |parts| - 1) by {
        forall j | 0 <= j < |parts| - 1 ensures !parts[1..][j].TextPart? {
          assert parts[1..][j] == parts[j + 1];
        }
      }
    }
    forall k | 0 <= k < |parts| && parts[k].TextPart? && NoTextBefore(parts, k) ensures t == parts[k].text {
      assert k > 0;
      assert parts[1..][k - 1] == parts[k];
      assert NoTextBefore(parts[1..], k - 1) by {
        forall j | 0 <= j < k - 1 ensures !parts[1..][j].TextPart? {
          assert parts[1..][j] == parts[j + 1];
        }
      }
    }
  }

  /** The urls of the image parts, in order. */
  function ImageUrls(parts: seq<Part>): (us: seq<string>)
    ensures |us| <= |parts|
    ensures forall u :: u in us ==> ImagePart(u) in parts
  {
    if |parts| == 0 then []
    else (if parts[0].ImagePart? then [parts[0].url] else []) + ImageUrls(parts[1..])
  }

  function GetMessageContent(c: Content): Shown
  {
    match c
    case NoContent => Shown("", [])
    case Str(s) => Shown(s, [])
    case Parts(ps) => Shown(FirstText(ps), ImageUrls(ps))
  }

  lemma {:induction false} ImageUrlsAppend(a: seq<Part>, b: seq<Part>)
    ensures ImageUrls(a + b) == ImageUrls(a) + ImageUrls(b)
  {
    if |a| > 0 {
      ImageUrlsAppend(a[1..], b);
      assert (a + b)[1..] == a[1..] + b;
    } else {
      assert a + b == b;
    }
  }

  function Urls(ps: seq<Part>): seq<string>
    requires forall k :: 0 <= k < |ps| ==> ps[k].ImagePart?
  {
    if |ps| == 0 then [] else [ps[0].url] + Urls(ps[1..])
  }

  lemma {:induction false} ImageUrlsOfImages(ps: seq<Part>)
    requires forall k :: 0 <= k < |ps| ==> ps[k].ImagePart?
    ensures ImageUrls(ps) == Urls(ps)
  {
    if |ps| > 0 {
      ImageUrlsOfImages(ps[1..]);
    }
  }

  /**
   * The bubble shows back what `handleSend` put into a user message: its
   * text, and the url of every attached image, in order.
   */
  lemma BubbleShowsUserMessage(text: string, images: seq<string>, model: string)
    ensures GetMessageContent(UserMessage(text, images, model).content)
         == Shown(text, Urls(ImageParts(images)))
  {
    if |images| > 0 {
      var ps := [TextPart(text)] + ImageParts(images);
      assert ps[1..] == ImageParts(images);
      ImageUrlsOfImages(ImageParts(images));
    } else {
      assert ImageParts(images) == [];
    }
  }
}
