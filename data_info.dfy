/** The hover popup `DataInfo` of `data-info.js`: where the card is placed,
    which record it shows (with its dedupe on the header), the time stamp
    test, show/hide and the language colour table. The DOM nodes are
    represented by the values written into them. */
module DataInfo {
  import opened JsValues
  import Controls

  /** `this.units.day` in milliseconds. */
  const DAY_MS: int := 24 * 60 * 60 * 1000
  /** `this.cardOffset`. */
  const CARD_OFFSET_X: real := 10.0
  const CARD_OFFSET_Y: real := 16.0

  /** `update`'s horizontal position: to the right of the cursor, pulled
      back so that the card's right edge keeps `cardOffset.x` from the
      window's edge. */
  function CardX(mouseX: real, offsetX: real, cardWidth: real, innerWidth: real): (x: real)
    ensures x <= innerWidth - cardWidth - CARD_OFFSET_X
    ensures x <= mouseX + offsetX + CARD_OFFSET_X
    ensures x == mouseX + offsetX + CARD_OFFSET_X || x == innerWidth - cardWidth - CARD_OFFSET_X
    ensures mouseX + offsetX + CARD_OFFSET_X <= innerWidth - cardWidth - CARD_OFFSET_X ==>
              x == mouseX + offsetX + CARD_OFFSET_X
  {
    var targetX := mouseX + offsetX + CARD_OFFSET_X;
    if targetX <= innerWidth - cardWidth - CARD_OFFSET_X then targetX
    else innerWidth - cardWidth - CARD_OFFSET_X
  }

  /** `update`'s vertical position: below the cursor when the card's bottom
      edge fits in the window, otherwise above it. */
  function CardY(mouseY: real, offsetY: real, cardHeight: real, innerHeight: real): (y: real)
    ensures var targetY := mouseY + offsetY + CARD_OFFSET_Y;
            if targetY + cardHeight > innerHeight + offsetY
            then y + cardHeight + CARD_OFFSET_Y / 2.0 == mouseY + offsetY
            else y == targetY && y + cardHeight <= innerHeight + offsetY
  {
    var targetY := mouseY + offsetY + CARD_OFFSET_Y;
    var bottomEdge := targetY + cardHeight;
    var aboveCursor := mouseY - cardHeight - CARD_OFFSET_Y / 2.0 + offsetY;
    if bottomEdge > innerHeight + offsetY then aboveCursor else targetY
  }

  /** A placed card never reaches past the window's right edge, and a
      card placed above the cursor ends above it. */
  lemma PlacementMeaning(mouseX: real, mouseY: real, offsetX: real, offsetY: real,
                         cardWidth: real, cardHeight: real, innerWidth: real, innerHeight: real)
    requires cardHeight >= 0.0
    ensures CardX(mouseX, offsetX, cardWidth, innerWidth) + cardWidth < innerWidth
    ensures CardY(mouseY, offsetY, cardHeight, innerHeight) != mouseY + offsetY + CARD_OFFSET_Y ==>
              CardY(mouseY, offsetY, cardHeight, innerHeight) + cardHeight < mouseY + offsetY
  {
  }

  /** The decimal digit for `d`. */
  function DigitChar(d: nat): (c: char)
    requires d < 10
    ensures '0' <= c <= '9' && c as int - '0' as int == d
  {
    ('0' as int + d) as char
  }

  predicate IsDigits(s: string) {
    forall i :: 0 <= i < |s| ==> '0' <= s[i] <= '9'
  }

  /** The decimal digits of `n`: one digit exactly below 10. */
  function NatToString(n: nat): (s: string)
    ensures |s| >= 1 && IsDigits(s)
    ensures |s| == 1 <==> n < 10
    decreases n
  {
    if n < 10 then [DigitChar(n)] else NatToString(n / 10) + [DigitChar(n % 10)]
  }

  /** Different numbers print differently. */
  lemma {:induction false} NatToStringInjective(m: nat, n: nat)
    requires NatToString(m) == NatToString(n)
    ensures m == n
  {
    var sm, sn := NatToString(m), NatToString(n);
    if m >= 10 && n >= 10 {
      assert sm[..|sm| - 1] == NatToString(m / 10);
      assert sn[..|sn| - 1] == NatToString(n / 10);
      NatToStringInjective(m / 10, n / 10);
      assert sm[|sm| - 1] == DigitChar(m % 10);
      assert sn[|sn| - 1] == DigitChar(n % 10);
    }
  }

  /** `${n}` for an integer. */
  function IntToString(i: int): (s: string)
    ensures |s| >= 1 && (s[0] == '-' || '0' <= s[0] <= '9')
    ensures ' ' !in s
  {
    if i < 0 then "-" + NatToString(-i) else NatToString(i)
  }

  /** Different integers print differently: a negative one starts with a
      minus sign, any other with a digit. */
  lemma IntToStringInjective(i: int, j: int)
    requires IntToString(i) == IntToString(j)
    ensures i == j
  {
    var si, sj := IntToString(i), IntToString(j);
    if i < 0 && j < 0 {
      assert si[1..] == NatToString(-i) && sj[1..] == NatToString(-j);
      NatToStringInjective(-i, -j);
    } else if i >= 0 && j >= 0 {
      NatToStringInjective(i, j);
    }
  }

  /** `${x}` in a template literal. */
  function ShowInt(x: Js<int>): (s: string)
    ensures ' ' !in s
  {
    match x
    case Null => "null"
    case Undefined => "undefined"
    case Val(i) => IntToString(i)
  }

  /** Each id prints as its own string: a number starts with a digit or a
      minus sign, `null` and `undefined` with a letter. */
  lemma ShowIntInjective(x: Js<int>, y: Js<int>)
    requires ShowInt(x) == ShowInt(y)
    ensures x == y
  {
    if x.Val? && y.Val? {
      IntToStringInjective(x.v, y.v);
    } else if x.Val? || y.Val? {
      assert ShowInt(x)[0] == ShowInt(y)[0];
    }
  }

  function ShowStr(x: Js<string>): string {
    match x
    case Null => "null"
    case Undefined => "undefined"
    case Val(s) => s
  }

  /** The `info` argument of `setInfo`. */
  datatype Info = Info(
    userOpenedLocation: Js<string>,
    userMergedLocation: Js<string>,
    language: Js<string>,
    popupType: Js<string>,
    header: Js<string>,
    body: Js<string>,
    nameWithOwner: Js<string>,
    prId: Js<int>,
    time: Js<int>,
    url: Js<string>)

  /** `#${pr_id} ${name_with_owner}`. */
  function PrHeader(info: Info): (h: string)
    ensures |h| >= 3 && h[0] == '#'
  {
    "#" + ShowInt(info.prId) + " " + ShowStr(info.nameWithOwner)
  }

  /** In `#p n` with no space in `p`, the first space follows `p`. */
  lemma FirstSpace(p: string, n: string)
    requires ' ' !in p
    ensures var h := "#" + p + " " + n;
      h[|p| + 1] == ' ' && forall k :: 1 <= k <= |p| ==> h[k] != ' '
  {
    var h := "#" + p + " " + n;
    forall k | 1 <= k <= |p|
      ensures h[k] != ' '
    {
      assert h[k] == p[k - 1];
    }
  }

  /** The first space ends the id: two headers `#p n` agree exactly when
      their ids and names agree. */
  lemma SplitAtFirstSpace(p1: string, n1: string, p2: string, n2: string)
    requires ' ' !in p1 && ' ' !in p2
    ensures "#" + p1 + " " + n1 == "#" + p2 + " " + n2 <==> p1 == p2 && n1 == n2
  {
    var h1, h2 := "#" + p1 + " " + n1, "#" + p2 + " " + n2;
    FirstSpace(p1, n1);
    FirstSpace(p2, n2);
    if h1 == h2 {
      assert |p1| == |p2|;
      assert p1 == h1[1..|p1| + 1] && p2 == h2[1..|p2| + 1];
      assert n1 == h1[|p1| + 2..] && n2 == h2[|p2| + 2..];
    }
  }

  /** The header identifies the pull request: equal headers mean equal ids
      and equal printed names, and conversely. */
  lemma PrHeaderIdentifies(a: Info, b: Info)
    ensures PrHeader(a) == PrHeader(b) <==>
      a.prId == b.prId && ShowStr(a.nameWithOwner) == ShowStr(b.nameWithOwner)
  {
    SplitAtFirstSpace(ShowInt(a.prId), ShowStr(a.nameWithOwner), ShowInt(b.prId), ShowStr(b.nameWithOwner));
    if PrHeader(a) == PrHeader(b) {
      ShowIntInjective(a.prId, b.prId);
    }
  }

  /** `shouldShowTime`: a time is shown when it is not `null` and lies less
      than a day before `now`; `undefined` makes the difference NaN, which
      is never below the bound. */
  function ShouldShowTime(time: Js<int>, now: int): (r: bool)
    ensures r <==> time.Val? && now - time.v < DAY_MS
  {
    time != Null && match time
      case Val(t) => now - t < DAY_MS
      case _ => false
  }

  /** The popover body. */
  datatype Body =
    | Placeholder
    | PrBody(language: Js<(string, Js<string>)>, text: string)
    | CustomBody(innerText: Js<string>)

  /** Which of the two icons is visible. */
  datatype Icon = PrIcon | GhIcon

  /** What `setInfo` writes: the dedupe key, the header and body text, the
      icon and the card link. */
  datatype Card = Card(cardHeader: string, headerText: Js<string>, body: Body, icon: Icon, href: Js<string>)

  /** The card as `init` builds it. */
  const INITIAL_CARD: Card := Card("", Val("#34234 facebook/react"), Placeholder, PrIcon, Undefined)

  /** `this.cardHeader == prHeader || this.cardHeader == header`, the second
      loosely equal only to a string. */
  predicate AlreadyShown(c: Card, info: Info) {
    c.cardHeader == PrHeader(info) || (info.header.Val? && c.cardHeader == info.header.v)
  }

  /** The language prefix of a PR body: the name and its colour dot, or
      nothing for a `null` language. */
  function LanguagePrefix(language: Js<string>): (p: Js<(string, Js<string>)>)
    ensures language.Null? <==> p.Null?
    ensures p.Val? ==> p.v.0 == ShowStr(language) && p.v.1 == ColorForLanguage(ShowStr(language))
  {
    if language.Null? then Null
    else Val((ShowStr(language), ColorForLanguage(ShowStr(language))))
  }

  /** The card after `setInfo(info)`; `stamp` is the relative-time markup
      for `info.time`. */
  function SetInfoCard(c: Card, info: Info, now: int, stamp: string): (r: Card)
    ensures AlreadyShown(c, info) ==> r == c
    ensures !AlreadyShown(c, info) ==> r.cardHeader == PrHeader(info)
    ensures !AlreadyShown(c, info) ==> r.href == if info.url.Null? then c.href else info.url
    ensures !AlreadyShown(c, info) && info.popupType in {Val("PR_MERGED"), Val("PR_OPENED")} ==>
              r.headerText == Val(PrHeader(info)) && r.body.PrBody? && r.icon == PrIcon
    ensures !AlreadyShown(c, info) && info.popupType == Val("CUSTOM") ==>
              r.headerText == info.header && r.body == CustomBody(info.body) && r.icon == GhIcon
    ensures info.popupType !in {Val("PR_MERGED"), Val("PR_OPENED"), Val("CUSTOM")} ==>
              r.headerText == c.headerText && r.body == c.body && r.icon == c.icon
  {
    if AlreadyShown(c, info) then c
    else
      var prHeader := PrHeader(info);
      var timeStamp := if ShouldShowTime(info.time, now) then stamp else "";
      var href := if info.url != Null then info.url else c.href;
      var lang := LanguagePrefix(info.language);
      if info.popupType == Val("PR_MERGED") then
        Card(prHeader, Val(prHeader),
             PrBody(lang, "Opened in " + ShowStr(info.userOpenedLocation) + ",\nmerged " + timeStamp +
                          " in " + ShowStr(info.userMergedLocation)),
             PrIcon, href)
      else if info.popupType == Val("PR_OPENED") then
        Card(prHeader, Val(prHeader),
             PrBody(lang, "Opened " + timeStamp + " in " + ShowStr(info.userOpenedLocation)),
             PrIcon, href)
      else if info.popupType == Val("CUSTOM") then
        Card(prHeader, info.header, CustomBody(info.body), GhIcon, href)
      else
        c.(cardHeader := prHeader, href := href)
  }

  /** Showing the same record twice changes nothing the second time. */
  lemma SetInfoIdempotent(c: Card, info: Info, now: int, stamp: string)
    ensures SetInfoCard(SetInfoCard(c, info, now, stamp), info, now, stamp) == SetInfoCard(c, info, now, stamp)
  {
  }

  /** The dedupe key is `#pr nwo` even for a CUSTOM record: once a CUSTOM
      record without `pr_id` and `name_with_owner` has been shown, every
      other such record is suppressed whatever its header and body. */
  lemma CustomRecordsShareKey(c: Card, a: Info, b: Info, now: int, stamp: string)
    requires a.popupType == Val("CUSTOM") && b.popupType == Val("CUSTOM")
    requires a.prId == b.prId == Undefined && a.nameWithOwner == b.nameWithOwner == Undefined
    requires !AlreadyShown(c, a)
    ensures var shown := SetInfoCard(c, a, now, stamp);
            SetInfoCard(shown, b, now, stamp) == shown
  {
  }

  /** `colorForLanguage`: the table lookup; a language the table does not
      list gives `undefined`. */
  function ColorForLanguage(language: string): (r: Js<string>)
    ensures r.Val? <==> language in LANGUAGE_COLORS
    ensures r.Val? ==> r.v == LANGUAGE_COLORS[language]
    ensures !r.Val? ==> r.Undefined?
  {
    if language in LANGUAGE_COLORS then Val(LANGUAGE_COLORS[language]) else Undefined
  }

  /** The language colour table. */
  const LANGUAGE_COLORS: map<string, string> := map[
    "ActionScript" := "#882B0F",
    "AMPL" := "#E6EFBB",
    "API Blueprint" := "#2ACCA8",
    "Apollo Guidance Computer" := "#0B3D91",
    "AppleScript" := "#101F1F",
    "Arc" := "#aa2afe",
    "ASP.NET" := "#9400ff",
    "Assembly" := "#6E4C13",
    "Batchfile" := "#C1F12E",
    "C" := "#555555",
    "C#" := "#178600",
    "C++" := "#f34b7d",
    "Clojure" := "#db5855",
    "CoffeeScript" := "#244776",
    "ColdFusion" := "#ed2cd6",
    "ColdFusion CFC" := "#ed2cd6",
    "Common Lisp" := "#3fb68b",
    "Component Pascal" := "#B0CE4E",
    "Crystal" := "#000100",
    "CSON" := "#244776",
    "CSS" := "#563d7c",
    "Dart" := "#00B4AB",
    "Dockerfile" := "#384d54",
    "EJS" := "#a91e50",
    "Elixir" := "#6e4a7e",
    "Elm" := "#60B5CC",
    "Emacs Lisp" := "#c065db",
    "EmberScript" := "#FFF4F3",
    "EQ" := "#a78649",
    "Erlang" := "#B83998",
    "Game Maker Language" := "#71b417",
    "GAML" := "#FFC766",
    "Glyph" := "#c1ac7f",
    "Go" := "#00ADD8",
    "GraphQL" := "#e10098",
    "Haml" := "#ece2a9",
    "Handlebars" := "#f7931e",
    "Harbour" := "#0e60e3",
    "Haskell" := "#5e5086",
    "HTML" := "#e34c26",
    "J" := "#9EEDFF",
    "Java" := "#b07219",
    "JavaScript" := "#f1e05a",
    "Julia" := "#a270ba",
    "Kotlin" := "#F18E33",
    "Less" := "#1d365d",
    "Lex" := "#DBCA00",
    "LLVM" := "#185619",
    "Lua" := "#000080",
    "Makefile" := "#427819",
    "Markdown" := "#083fa1",
    "MATLAB" := "#e16737",
    "Mercury" := "#ff2b2b",
    "Metal" := "#8f14e9",
    "Nim" := "#ffc200",
    "Nix" := "#7e7eff",
    "NumPy" := "#9C8AF9",
    "Objective-C" := "#438eff",
    "Objective-C++" := "#6866fb",
    "Pan" := "#cc0000",
    "Pascal" := "#E3F171",
    "Pawn" := "#dbb284",
    "Perl" := "#0298c3",
    "PHP" := "#4F5D95",
    "PLSQL" := "#dad8d8",
    "PostScript" := "#da291c",
    "PowerBuilder" := "#8f0f8d",
    "PowerShell" := "#012456",
    "Prisma" := "#0c344b",
    "Processing" := "#0096D8",
    "Puppet" := "#302B6D",
    "Python" := "#3572A5",
    "R" := "#198CE7",
    "Reason" := "#ff5847",
    "Ruby" := "#701516",
    "Rust" := "#dea584",
    "Sass" := "#a53b70",
    "Scala" := "#c22d40",
    "Scheme" := "#1e4aec",
    "SCSS" := "#c6538c",
    "Shell" := "#89e051",
    "Svelte" := "#ff3e00",
    "SVG" := "#ff9900",
    "Swift" := "#ffac45",
    "TI Program" := "#A0AA87",
    "Turing" := "#cf142b",
    "Twig" := "#c1d026",
    "TypeScript" := "#2b7489",
    "Uno" := "#9933cc",
    "UnrealScript" := "#a54c4d",
    "Vala" := "#fbe5cd",
    "Vim script" := "#199f4b",
    "Visual Basic .NET" := "#945db7",
    "Vue" := "#41586f",
    "wdl" := "#42f1f4",
    "WebAssembly" := "#04133b",
    "YAML" := "#cb171e"
  ]

  class DataInfo {
    /** `props.controls`, shared with the controller. */
    const controls: Controls.Controls
    /** `this.now`, fixed when the popup is built. */
    const now: int
    var isVisible: bool
    /** `d-block` on the popup element and `cursor-pointer` on the canvas. */
    var displayed: bool
    var cursorPointer: bool
    var cardHeader: string
    var headerText: Js<string>
    var body: Body
    var icon: Icon
    var href: Js<string>

    function CardState(): Card
      reads this
    {
      Card(cardHeader, headerText, body, icon, href)
    }

    constructor (controls: Controls.Controls, now: int)
      ensures this.controls == controls && this.now == now
      ensures !isVisible && !displayed && !cursorPointer
      ensures CardState() == INITIAL_CARD
    {
      this.controls := controls;
      this.now := now;
      isVisible, displayed, cursorPointer := false, false, false;
      cardHeader, headerText, body, icon, href := "", Val("#34234 facebook/react"), Placeholder, PrIcon, Undefined;
    }

    /** `setInfo(info)`, with `stamp` the relative-time markup of
        `info.time`. */
    method SetInfo(info: Info, stamp: string)
      modifies this
      ensures CardState() == SetInfoCard(old(CardState()), info, now, stamp)
      ensures isVisible == old(isVisible) && displayed == old(displayed) && cursorPointer == old(cursorPointer)
    {
      var c := SetInfoCard(CardState(), info, now, stamp);
      cardHeader, headerText, body, icon, href := c.cardHeader, c.headerText, c.body, c.icon, c.href;
    }

    /** `show`: makes the popup visible and stops the auto rotation; a
        no-op when already visible. */
    method Show()
      modifies this`isVisible, this`displayed, this`cursorPointer, controls`autoRotationSpeedScalarTarget
      ensures isVisible && (old(isVisible) || displayed) && (old(isVisible) || cursorPointer)
      ensures old(isVisible) ==> displayed == old(displayed) && cursorPointer == old(cursorPointer)
      ensures controls.autoRotationSpeedScalarTarget ==
                if old(isVisible) then old(controls.autoRotationSpeedScalarTarget) else 0.0
      ensures CardState() == old(CardState())
      ensures controls.autoRotationSpeedScalar == old(controls.autoRotationSpeedScalar)
      ensures controls.dragging == old(controls.dragging) && controls.targetY == old(controls.targetY)
    {
      if isVisible {
        return;
      }
      cursorPointer := true;
      displayed := true;
      controls.autoRotationSpeedScalarTarget := 0.0;
      isVisible := true;
    }

    /** `hide`: hides the popup and resumes the auto rotation; a no-op when
        already hidden. */
    method Hide()
      modifies this`isVisible, this`displayed, this`cursorPointer, controls`autoRotationSpeedScalarTarget
      ensures !isVisible && (!old(isVisible) || !displayed) && (!old(isVisible) || !cursorPointer)
      ensures !old(isVisible) ==> displayed == old(displayed) && cursorPointer == old(cursorPointer)
      ensures controls.autoRotationSpeedScalarTarget ==
                if old(isVisible) then 1.0 else old(controls.autoRotationSpeedScalarTarget)
      ensures CardState() == old(CardState())
      ensures controls.autoRotationSpeedScalar == old(controls.autoRotationSpeedScalar)
      ensures controls.dragging == old(controls.dragging) && controls.targetY == old(controls.targetY)
    {
      if !isVisible {
        return;
      }
      cursorPointer := false;
      displayed := false;
      controls.autoRotationSpeedScalarTarget := 1.0;
      isVisible := false;
    }
  }
}
