/** RCTTextViewRecorder (iOS): the session-replay node recorder for React
    Native text. The text of a text view is gathered from its shadow-view
    tree, and one text wireframe is built from it. */
module TextViewRecorder {

  import opened Wrappers

  /** The children of a text shadow view: raw text (whose text may be nil),
      nested virtual text (whose subview list may be nil), or anything else. */
  datatype ShadowView =
    | RawText(text: Option<string>)
    | VirtualText(subviews: Subviews)
    | OtherShadowView

  /** A possibly nil list of shadow views (`[RCTShadowView]?`). */
  datatype Subviews = NilSubviews | Subviews(views: seq<ShadowView>)

  /** extractTextFromSubViews: nil for a nil list; otherwise the in-order
      concatenation of what each child contributes. */
  function ExtractTextFromSubViews(subviews: Subviews): (r: Option<string>)
    decreases subviews
    ensures subviews.NilSubviews? <==> r.None?
    ensures subviews == Subviews([]) ==> r == Some("")
  {
    match subviews
    case NilSubviews => None
    case Subviews(s) => Some(Joined(s))
  }

  /** compactMap followed by joined: nil contributions are dropped. */
  function Joined(s: seq<ShadowView>): string
    decreases s
  {
    if s == [] then "" else Contribution(s[0]).GetOr("") + Joined(s[1..])
  }

  /** What one child contributes: its text, its recursive result, or nothing. */
  function Contribution(v: ShadowView): Option<string>
    decreases v
  {
    match v
    case RawText(t) => t
    case VirtualText(sub) => ExtractTextFromSubViews(sub)
    case OtherShadowView => None
  }

  // ----- the reference flattening -----

  /** The texts of the non-nil raw-text leaves reachable through virtual
      text, left to right. */
  function Leaves(v: ShadowView): seq<string>
    decreases v
  {
    match v
    case RawText(t) => if t.Some? then [t.value] else []
    case VirtualText(NilSubviews) => []
    case VirtualText(Subviews(s)) => LeavesOf(s)
    case OtherShadowView => []
  }

  function LeavesOf(s: seq<ShadowView>): seq<string>
    decreases s
  {
    if s == [] then [] else Leaves(s[0]) + LeavesOf(s[1..])
  }

  function Concat(ts: seq<string>): string {
    if ts == [] then "" else ts[0] + Concat(ts[1..])
  }

  lemma {:induction false} ConcatAppend(a: seq<string>, b: seq<string>)
    ensures Concat(a + b) == Concat(a) + Concat(b)
  {
    if a == [] {
      assert a + b == b;
    } else {
      assert (a + b)[1..] == a[1..] + b;
      ConcatAppend(a[1..], b);
    }
  }

  /** The text gathered from a list of children is the concatenation of the
      raw-text leaves under it. */
  lemma {:induction false} JoinedIsLeaves(s: seq<ShadowView>)
    ensures Joined(s) == Concat(LeavesOf(s))
    decreases s
  {
    if s != [] {
      ContributionIsLeaves(s[0]);
      JoinedIsLeaves(s[1..]);
      ConcatAppend(Leaves(s[0]), LeavesOf(s[1..]));
    }
  }

  lemma {:induction false} ContributionIsLeaves(v: ShadowView)
    ensures Contribution(v).GetOr("") == Concat(Leaves(v))
    decreases v
  {
    match v
    case RawText(t) =>
      if t.Some? {
        assert Concat([t.value]) == t.value + Concat([]);
      }
    case VirtualText(NilSubviews) =>
    case VirtualText(Subviews(s)) =>
      JoinedIsLeaves(s);
    case OtherShadowView =>
  }

  /** A non-nil list yields exactly the concatenated leaves. */
  lemma ExtractTextIsFlattening(subviews: seq<ShadowView>)
    ensures ExtractTextFromSubViews(Subviews(subviews)) == Some(Concat(LeavesOf(subviews)))
  {
    JoinedIsLeaves(subviews);
  }

  // ----- semantics and wireframes -----

  /** A CGFloat font size, which may be NaN. */
  datatype FontSize = NaN | Size(points: real)

  datatype Color = Color(red: real, green: real, blue: real, alpha: real)

  /** UIColor.black, the React Native default text colour. */
  const DefaultColor: Color := Color(0.0, 0.0, 0.0, 1.0)
  /** The React Native default font size. */
  const DefaultFontSize: real := 14.0

  /** What the UI manager holds for a react tag: a text shadow view (with its
      text attributes) or some other shadow view. */
  datatype RegisteredShadowView =
    | TextShadowView(subviews: Subviews, foregroundColor: Option<Color>, fontSize: FontSize)
    | OtherRegisteredShadowView

  /** The views the recorder is asked about. */
  datatype View = TextView(reactTag: int) | OtherView

  /** RCTTextViewWireframesBuilder, reduced to the fields this model keeps;
      `mask` is the text obfuscator of the recording context. */
  datatype WireframesBuilder = WireframesBuilder(
    wireframeID: int, text: Option<string>, textColor: Option<Color>, fontSize: FontSize, mask: string -> string)

  datatype SubtreeStrategy = Ignore | Record

  datatype NodeSemantics =
    | InvisibleElement
    | SpecificElement(subtreeStrategy: SubtreeStrategy, nodes: seq<WireframesBuilder>)

  /** semantics: `shadowViewFor` is the UI manager's lookup by react tag,
      `nodeID` the context's wireframe id, `mask` the text obfuscator. */
  function Semantics(view: View, shadowViewFor: int -> Option<RegisteredShadowView>, nodeID: int,
                     mask: string -> string): (r: Option<NodeSemantics>)
    ensures !view.TextView? ==> r.None?
    ensures view.TextView? && !(shadowViewFor(view.reactTag).Some? && shadowViewFor(view.reactTag).value.TextShadowView?)
            ==> r == Some(InvisibleElement)
    ensures view.TextView? && shadowViewFor(view.reactTag).Some? && shadowViewFor(view.reactTag).value.TextShadowView? ==>
      var shadow := shadowViewFor(view.reactTag).value;
      && r.Some? && r.value.SpecificElement? && r.value.subtreeStrategy == Ignore && |r.value.nodes| == 1
      && r.value.nodes[0].wireframeID == nodeID
      && r.value.nodes[0].text == ExtractTextFromSubViews(shadow.subviews)
      && r.value.nodes[0].textColor == shadow.foregroundColor
      && r.value.nodes[0].fontSize == shadow.fontSize
      && r.value.nodes[0].mask == mask
  {
    match view
    case OtherView => None
    case TextView(tag) =>
      match shadowViewFor(tag)
      case Some(TextShadowView(subviews, color, fontSize)) =>
        var builder := WireframesBuilder(nodeID, ExtractTextFromSubViews(subviews), color, fontSize, mask);
        Some(SpecificElement(Ignore, [builder]))
      case _ => Some(InvisibleElement)
  }

  datatype TextWireframe = TextWireframe(id: int, text: string, textColor: Color, fontSize: real)

  function BuildWireframes(b: WireframesBuilder): (w: seq<TextWireframe>)
    ensures |w| == 1 && w[0].id == b.wireframeID
    ensures b.text.Some? ==> w[0].text == b.mask(b.text.value)
    ensures b.text.None? ==> w[0].text == b.mask("")
    ensures b.textColor.Some? ==> w[0].textColor == b.textColor.value
    ensures b.textColor.None? ==> w[0].textColor == DefaultColor
    ensures b.fontSize.NaN? ==> w[0].fontSize == DefaultFontSize
    ensures b.fontSize.Size? ==> w[0].fontSize == b.fontSize.points
  {
    var size := match b.fontSize case NaN => DefaultFontSize case Size(p) => p;
    [TextWireframe(b.wireframeID, b.mask(b.text.GetOr("")), b.textColor.GetOr(DefaultColor), size)]
  }

  // ----- properties -----

  /** End to end: a recorded text view yields one wireframe whose text is
      the masked concatenation of its raw-text leaves, or the masked empty
      string when the shadow view has no subview list. */
  lemma RecordedTextIsMaskedLeaves(tag: int, shadowViewFor: int -> Option<RegisteredShadowView>, nodeID: int,
                                   mask: string -> string)
    requires shadowViewFor(tag).Some? && shadowViewFor(tag).value.TextShadowView?
    ensures var r := Semantics(TextView(tag), shadowViewFor, nodeID, mask);
            var subviews := shadowViewFor(tag).value.subviews;
            && r.Some? && r.value.SpecificElement? && |r.value.nodes| == 1
            && var w := BuildWireframes(r.value.nodes[0]);
               && |w| == 1
               && (subviews.Subviews? ==> w[0].text == mask(Concat(LeavesOf(subviews.views))))
               && (subviews.NilSubviews? ==> w[0].text == mask(""))
  {
    var subviews := shadowViewFor(tag).value.subviews;
    if subviews.Subviews? {
      ExtractTextIsFlattening(subviews.views);
    }
  }

  /** Text under a non-text child is not gathered, however deep it sits. */
  lemma OtherChildrenContributeNothing(s: seq<ShadowView>)
    ensures ExtractTextFromSubViews(Subviews([OtherShadowView] + s)) == ExtractTextFromSubViews(Subviews(s))
  {
    var t := [OtherShadowView] + s;
    assert t[0] == OtherShadowView && t[1..] == s;
    assert Joined(t) == Contribution(t[0]).GetOr("") + Joined(t[1..]);
    assert Joined(t) == Joined(s);
  }

  /** Nested virtual text is transparent: wrapping the children in a
      virtual-text node does not change the text. */
  lemma VirtualTextIsTransparent(s: seq<ShadowView>)
    ensures ExtractTextFromSubViews(Subviews([VirtualText(Subviews(s))])) == ExtractTextFromSubViews(Subviews(s))
  {
    var t := [VirtualText(Subviews(s))];
    assert t[1..] == [];
    assert Joined(t) == Contribution(t[0]).GetOr("") + Joined(t[1..]);
    assert Joined(t) == Joined(s);
  }
}
