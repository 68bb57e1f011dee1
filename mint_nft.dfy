/** The mint panel: it mints either the bare drawing or the full card. A mint
    attempt runs a fixed chain of input checks, a network check, and then the
    stages fetch image, upload image, build and upload the metadata document,
    and mint. Every external call is an input (`Gateway`); the attempt returns
    the calls it makes, toasts included, in order. */
module MintNft {
  import opened Wrappers
  import opened Strings
  import opened Toasts
  import opened NftMetadata
  import HomePage
  import NftCard
  import Tiers

  datatype MintType = DrawingMint | CardMint

  type Blob = seq<bv8>

  /** One interaction of a mint attempt with the outside world. */
  datatype Call =
    | SwitchChain(chainId: int)
    | FetchImage(url: string)
    | UploadImage(blob: Blob, fileName: string)
    | UploadMetadata(doc: Document)
    | Mint(tokenUri: string, quantity: int)
    | ShowToast(toast: Toast)

  /** How each awaited call settles during one attempt: the network switch, the
      fetch of the image as a blob, the two uploads (each resolving with a
      locator) and the mint (resolving with a truthy or falsy result). */
  datatype Gateway = Gateway(
    switchSucceeds: bool,
    fetched: Settled<Blob>,
    imageUploaded: Settled<string>,
    metadataUploaded: Settled<string>,
    minted: Settled<bool>)

  /** The connected account and network, either possibly absent. */
  datatype Wallet = Wallet(address: Option<string>, chainId: Option<int>)

  const MissingImage := Toast("Error", "Missing image", true)
  const MissingMetadata := Toast("Error", "Missing metadata for card minting", true)
  const ConnectWallet := Toast("Error", "Please connect your wallet first", true)
  const NetworkChanged := Toast("Network Changed", "Please try minting again", false)
  const SwitchFailed := Toast("Error", "Failed to switch network. Please switch to Zora Sepolia network manually.", true)

  /** The toast of a rejected stage: the error's message, or the generic text
      when the message is empty. */
  function FailureToast(message: string): Toast {
    Toast("Error", if message != "" then message else "Failed to mint NFT. Please try again.", true)
  }

  /** The toast of a mint whose result is truthy, naming the mint type. */
  function SuccessToast(mintType: MintType): Toast {
    Toast("Success",
          "NFT " + (if mintType == DrawingMint then "drawing" else "card")
          + " minted successfully! Check your wallet for the transaction.",
          false)
  }

  /** An error toast always carries some text: the error's own message when
      it has one, the generic text otherwise. */
  lemma FailureToastText(message: string)
    ensures FailureToast(message).destructive && FailureToast(message).title == "Error"
    ensures FailureToast(message).description != ""
    ensures message != "" ==> FailureToast(message).description == message
  {
  }

  /** The success toast is not an error toast, and names the mint type: the
      two modes never show the same toast. */
  lemma SuccessToastNamesMintType(a: MintType, b: MintType)
    ensures !SuccessToast(a).destructive
    ensures SuccessToast(a) == SuccessToast(b) <==> a == b
  {
    if a != b {
      assert SuccessToast(a).description[4] != SuccessToast(b).description[4];
    }
  }

  /** `imageUrl || canvasImageUrl`. */
  function FinalImage(imageUrl: Option<string>, canvasImageUrl: Option<string>): (r: Option<string>)
    ensures Truthy(imageUrl) ==> r == imageUrl
    ensures !Truthy(imageUrl) ==> r == canvasImageUrl
    ensures Truthy(r) <==> Truthy(imageUrl) || Truthy(canvasImageUrl)
  {
    if Truthy(imageUrl) then imageUrl else canvasImageUrl
  }

  /** The input checks of `handleMint`, in order; the first that fails names
      the toast. No toast exactly when there is an image, card mode has its
      metadata, and an account is connected. */
  function ValidationError(finalImage: Option<string>, mintType: MintType, metadata: Option<HomePage.Card>,
                           address: Option<string>): (r: Option<Toast>)
    ensures r.None? <==> Truthy(finalImage) && (mintType == CardMint ==> metadata.Some?) && Truthy(address)
    ensures !Truthy(finalImage) ==> r == Some(MissingImage)
    ensures Truthy(finalImage) && mintType == CardMint && metadata.None? ==> r == Some(MissingMetadata)
    ensures Truthy(finalImage) && (mintType == CardMint ==> metadata.Some?) && !Truthy(address) ==>
      r == Some(ConnectWallet)
  {
    if !Truthy(finalImage) then Some(MissingImage)
    else if mintType == CardMint && metadata.None? then Some(MissingMetadata)
    else if !Truthy(address) then Some(ConnectWallet)
    else None
  }

  /** `isButtonDisabled`. */
  predicate ButtonDisabled(isMinting: bool, finalImage: Option<string>, mintType: MintType,
                           metadata: Option<HomePage.Card>, amount: string, address: Option<string>)
  {
    isMinting || !Truthy(finalImage) || (mintType == CardMint && metadata.None?) || amount == "" || !Truthy(address)
  }

  /** An enabled button passes every input check, so no validation toast can
      come from it; its amount also parses to its own decimal value or to 1. */
  lemma EnabledButtonPassesValidation(isMinting: bool, finalImage: Option<string>, mintType: MintType,
                                      metadata: Option<HomePage.Card>, amount: string, address: Option<string>)
    requires !ButtonDisabled(isMinting, finalImage, mintType, metadata, amount, address)
    ensures ValidationError(finalImage, mintType, metadata, address) == None
    ensures IsDigits(amount) ==> ParseAmount(amount) == if DecimalValue(amount) == 0 then 1 else DecimalValue(amount)
  {
  }

  /** `handleAmountChange` keeps a value that is empty or matches `^\d+$`. */
  predicate AcceptsAmount(value: string) {
    value == "" || (|value| > 0 && IsDigits(value))
  }

  /** `parseInt(amount) || 1`: NaN and 0 both become 1. For the empty string
      or a digit string the quantity is at least 1: 1 for "" and for zero,
      the decimal value otherwise. */
  function ParseAmount(amount: string): (q: int)
    ensures AcceptsAmount(amount) ==> q >= 1
    ensures amount == "" ==> q == 1
    ensures IsDigits(amount) && amount != "" ==>
      q == if DecimalValue(amount) == 0 then 1 else DecimalValue(amount)
  {
    match ParseInt(amount)
    case None => 1
    case Some(v) => if v == 0 then 1 else v
  }

  /** A positive quantity printed in decimal is read back unchanged. */
  lemma ParseAmountOfDecimal(n: nat)
    requires n >= 1
    ensures ParseAmount(NatToDecimal(n)) == n
  {
  }

  /** Without the input filter the rule would pass a negative quantity on. */
  lemma ParseAmountNeedsFilter()
    ensures !AcceptsAmount("-3") && ParseAmount("-3") == -3
  {
    TrimStartKeeps("-3");
    assert "-3"[1..] == "3";
    assert DecimalValue("3") == 3 by {
      assert "3"[..0] == "";
    }
    assert ParseDigits("3") == Some(3);
  }

  /** `${move.name} (${move.damage} damage)`. */
  function MoveLabel(m: Move): string {
    m.name + " (" + IntToDecimal(m.damage) + " damage)"
  }

  function Labels(moves: seq<Move>): (r: seq<string>)
    ensures |r| == |moves|
    ensures forall i :: 0 <= i < |moves| ==> r[i] == MoveLabel(moves[i])
  {
    if moves == [] then [] else [MoveLabel(moves[0])] + Labels(moves[1..])
  }

  /** The `Moves` attribute: every move's label, joined with ", ". */
  function MovesString(moves: seq<Move>): string {
    Join(Labels(moves), ", ")
  }

  /** One more move adds ", " and its label. */
  lemma MovesStringAppend(moves: seq<Move>, m: Move)
    requires moves != []
    ensures MovesString(moves + [m]) == MovesString(moves) + ", " + MoveLabel(m)
  {
    assert Labels(moves + [m]) == Labels(moves) + [MoveLabel(m)];
    JoinAppend(Labels(moves), MoveLabel(m), ", ");
  }

  /** Three parts join as the first, the separator, the second, the separator
      and the third. */
  lemma JoinThree(a: string, b: string, c: string, sep: string)
    ensures Join([a, b, c], sep) == a + sep + b + sep + c
  {
    JoinAppend([a, b], c, sep);
    JoinAppend([a], b, sep);
    assert [a] + [b] == [a, b];
    assert [a, b] + [c] == [a, b, c];
  }

  /** The `Moves` attribute of a card from the home page lists its three moves
      in order, Creative Strike, Prompt Blast, Artistic Wave, each with its
      damage. */
  lemma CardMovesString(s: HomePage.Scores, drawingNumber: nat)
    ensures var ms := HomePage.BuildCard(s, drawingNumber).moves;
      && |ms| == 3
      && MovesString(ms) == MoveLabel(ms[0]) + ", " + MoveLabel(ms[1]) + ", " + MoveLabel(ms[2])
      && ms[0] == Move("Creative Strike", HomePage.Damage(s.creativity))
      && ms[1] == Move("Prompt Blast", HomePage.Damage(s.promptAdherence))
      && ms[2] == Move("Artistic Wave", HomePage.Damage(s.artisticQuality))
  {
    var ms := HomePage.BuildCard(s, drawingNumber).moves;
    HomePage.CardMoves(s, drawingNumber);
    assert Labels(ms) == [MoveLabel(ms[0]), MoveLabel(ms[1]), MoveLabel(ms[2])];
    JoinThree(MoveLabel(ms[0]), MoveLabel(ms[1]), MoveLabel(ms[2]), ", ");
  }

  /** The document of a bare drawing. */
  function DrawingDocument(imageLocator: string): (d: Document)
    ensures d.name == "My Drawing" && d.description == "A drawing I created"
    ensures d.image == imageLocator
    ensures d.attributes == [Attribute("Type", StrValue("Drawing"))]
    ensures d.properties == None
  {
    Document("My Drawing", "A drawing I created", imageLocator, [Attribute("Type", StrValue("Drawing"))], None)
  }

  /** The three attributes Type, HP and Moves, in that order, carry exactly
      what the `properties` block carries. */
  predicate AttributesMirrorProperties(d: Document) {
    && d.properties.Some?
    && TraitTypes(d.attributes) == ["Type", "HP", "Moves"]
    && d.attributes[0].value == StrValue(d.properties.value.cardType)
    && d.attributes[1].value == IntValue(d.properties.value.hp)
    && d.attributes[2].value == StrValue(MovesString(d.properties.value.moves))
  }

  /** The document of a full card: the card's name and description, the
      uploaded image, and its type, hit points and moves twice over. */
  function CardDocument(card: HomePage.Card, imageLocator: string): (d: Document)
    ensures d.name == card.name && d.description == card.description && d.image == imageLocator
    ensures d.properties == Some(Properties(card.cardType, card.hp, card.moves))
    ensures AttributesMirrorProperties(d)
  {
    Document(card.name, card.description, imageLocator,
             [ Attribute("Type", StrValue(card.cardType)),
               Attribute("HP", IntValue(card.hp)),
               Attribute("Moves", StrValue(MovesString(card.moves))) ],
             Some(Properties(card.cardType, card.hp, card.moves)))
  }

  /** The document for the chosen mint type: the bare drawing's in drawing
      mode, the card's in card mode; only the card's has a properties block. */
  function NftDocument(mintType: MintType, metadata: Option<HomePage.Card>, imageLocator: string): (d: Document)
    requires mintType == CardMint ==> metadata.Some?
    ensures d.image == imageLocator
    ensures mintType == DrawingMint ==> d == DrawingDocument(imageLocator)
    ensures mintType == CardMint ==> d == CardDocument(metadata.value, imageLocator)
    ensures d.properties.Some? <==> mintType == CardMint
  {
    if mintType == DrawingMint then DrawingDocument(imageLocator) else CardDocument(metadata.value, imageLocator)
  }

  /** The stages after the checks, each awaited before the next: the calls
      of every outcome. A rejection ends the attempt with its toast, and a
      falsy mint result ends it silently. */
  function SubmitCalls(url: string, mintType: MintType, metadata: Option<HomePage.Card>, quantity: int,
                       gw: Gateway): seq<Call>
    requires mintType == CardMint ==> metadata.Some?
  {
    var fetch := FetchImage(url);
    match gw.fetched
    case Rejected(m) => [fetch, ShowToast(FailureToast(m))]
    case Resolved(blob) =>
      var uploadImage := UploadImage(blob, "nft-image.png");
      match gw.imageUploaded
      case Rejected(m) => [fetch, uploadImage, ShowToast(FailureToast(m))]
      case Resolved(imageLocator) =>
        var uploadDocument := UploadMetadata(NftDocument(mintType, metadata, imageLocator));
        match gw.metadataUploaded
        case Rejected(m) => [fetch, uploadImage, uploadDocument, ShowToast(FailureToast(m))]
        case Resolved(metadataLocator) =>
          var mint := Mint(metadataLocator, quantity);
          match gw.minted
          case Rejected(m) => [fetch, uploadImage, uploadDocument, mint, ShowToast(FailureToast(m))]
          case Resolved(result) =>
            if result then [fetch, uploadImage, uploadDocument, mint, ShowToast(SuccessToast(mintType))]
            else [fetch, uploadImage, uploadDocument, mint]
  }

  /** The `try` block of `handleMint`, stage by stage. */
  method Submit(url: string, mintType: MintType, metadata: Option<HomePage.Card>, quantity: int, gw: Gateway)
    returns (calls: seq<Call>)
    requires mintType == CardMint ==> metadata.Some?
    ensures calls == SubmitCalls(url, mintType, metadata, quantity, gw)
  {
    calls := [FetchImage(url)];
    if gw.fetched.Rejected? {
      return calls + [ShowToast(FailureToast(gw.fetched.message))];
    }
    var blob := gw.fetched.value;
    calls := calls + [UploadImage(blob, "nft-image.png")];
    assert calls == [FetchImage(url), UploadImage(blob, "nft-image.png")];
    if gw.imageUploaded.Rejected? {
      return calls + [ShowToast(FailureToast(gw.imageUploaded.message))];
    }
    var imageIpfsUrl := gw.imageUploaded.value;
    var nftMetadata := if mintType == DrawingMint then DrawingDocument(imageIpfsUrl)
      else CardDocument(metadata.value, imageIpfsUrl);
    calls := calls + [UploadMetadata(nftMetadata)];
    assert calls == [FetchImage(url), UploadImage(blob, "nft-image.png"), UploadMetadata(nftMetadata)];
    if gw.metadataUploaded.Rejected? {
      return calls + [ShowToast(FailureToast(gw.metadataUploaded.message))];
    }
    calls := calls + [Mint(gw.metadataUploaded.value, quantity)];
    assert calls == [FetchImage(url), UploadImage(blob, "nft-image.png"), UploadMetadata(nftMetadata),
                     Mint(gw.metadataUploaded.value, quantity)];
    if gw.minted.Rejected? {
      return calls + [ShowToast(FailureToast(gw.minted.message))];
    }
    if gw.minted.value {
      calls := calls + [ShowToast(SuccessToast(mintType))];
    }
  }

  /** A mint call happens exactly when the fetch and both uploads resolved; it
      is the fourth call, comes right after the upload of the document built on
      the image's locator, and mints `quantity` tokens at the document's
      locator. */
  lemma SubmitMintsAfterUploads(url: string, mintType: MintType, metadata: Option<HomePage.Card>,
                                quantity: int, gw: Gateway)
    requires mintType == CardMint ==> metadata.Some?
    ensures var calls := SubmitCalls(url, mintType, metadata, quantity, gw);
      && calls[0] == FetchImage(url)
      && ((exists i :: 0 <= i < |calls| && calls[i].Mint?) <==>
            gw.fetched.Resolved? && gw.imageUploaded.Resolved? && gw.metadataUploaded.Resolved?)
      && forall i :: 0 <= i < |calls| && calls[i].Mint? ==>
           && i == 3
           && gw.imageUploaded.Resolved?
           && calls[2] == UploadMetadata(NftDocument(mintType, metadata, gw.imageUploaded.value))
           && gw.metadataUploaded == Resolved(calls[i].tokenUri)
           && calls[i].quantity == quantity
  {
    SubmitShape(url, mintType, metadata, quantity, gw);
  }

  /** Where each call of an attempt past the checks sits: the fetch first,
      then one further call per resolved stage, and at most one toast. */
  lemma SubmitShape(url: string, mintType: MintType, metadata: Option<HomePage.Card>, quantity: int,
                    gw: Gateway)
    requires mintType == CardMint ==> metadata.Some?
    ensures var calls := SubmitCalls(url, mintType, metadata, quantity, gw);
      && calls[0] == FetchImage(url)
      && (gw.fetched.Rejected? ==> |calls| == 2 && calls[1].ShowToast?)
      && (gw.fetched.Resolved? && gw.imageUploaded.Rejected? ==>
            |calls| == 3 && calls[1].UploadImage? && calls[2].ShowToast?)
      && (gw.fetched.Resolved? && gw.imageUploaded.Resolved? && gw.metadataUploaded.Rejected? ==>
            |calls| == 4 && calls[1].UploadImage? && calls[2].UploadMetadata? && calls[3].ShowToast?)
      && (gw.fetched.Resolved? && gw.imageUploaded.Resolved? && gw.metadataUploaded.Resolved? ==>
            && 4 <= |calls| <= 5 && calls[1].UploadImage?
            && calls[2] == UploadMetadata(NftDocument(mintType, metadata, gw.imageUploaded.value))
            && calls[3] == Mint(gw.metadataUploaded.value, quantity)
            && (|calls| == 5 ==> calls[4].ShowToast?))
  {
  }

  /** Whether some stage of an attempt rejected. */
  predicate AnyRejected(gw: Gateway) {
    gw.fetched.Rejected? || gw.imageUploaded.Rejected? || gw.metadataUploaded.Rejected? || gw.minted.Rejected?
  }

  /** An attempt past the checks ends with an error toast exactly when some
      stage rejected. */
  lemma SubmitFailureEnding(url: string, mintType: MintType, metadata: Option<HomePage.Card>, quantity: int,
                            gw: Gateway)
    requires mintType == CardMint ==> metadata.Some?
    ensures var calls := SubmitCalls(url, mintType, metadata, quantity, gw);
      AnyRejected(gw) <==> calls[|calls| - 1].ShowToast? && calls[|calls| - 1].toast.destructive
  {
    SubmitLast(url, mintType, metadata, quantity, gw);
  }

  /** It ends with the success toast exactly when every stage resolved and the
      mint's result is truthy. */
  lemma SubmitSuccessEnding(url: string, mintType: MintType, metadata: Option<HomePage.Card>, quantity: int,
                            gw: Gateway)
    requires mintType == CardMint ==> metadata.Some?
    ensures var calls := SubmitCalls(url, mintType, metadata, quantity, gw);
      !AnyRejected(gw) && gw.minted == Resolved(true) <==> calls[|calls| - 1] == ShowToast(SuccessToast(mintType))
  {
    SubmitLast(url, mintType, metadata, quantity, gw);
  }

  /** It ends silently, with the mint as its last call, exactly when every
      stage resolved and the mint's result is falsy. */
  lemma SubmitSilentEnding(url: string, mintType: MintType, metadata: Option<HomePage.Card>, quantity: int,
                           gw: Gateway)
    requires mintType == CardMint ==> metadata.Some?
    ensures var calls := SubmitCalls(url, mintType, metadata, quantity, gw);
      !AnyRejected(gw) && gw.minted == Resolved(false) <==> calls[|calls| - 1].Mint?
  {
    SubmitLast(url, mintType, metadata, quantity, gw);
  }

  /** The last call of an attempt past the checks. */
  lemma SubmitLast(url: string, mintType: MintType, metadata: Option<HomePage.Card>, quantity: int,
                   gw: Gateway)
    requires mintType == CardMint ==> metadata.Some?
    ensures var calls := SubmitCalls(url, mintType, metadata, quantity, gw);
      calls[|calls| - 1] ==
        if gw.fetched.Rejected? then ShowToast(FailureToast(gw.fetched.message))
        else if gw.imageUploaded.Rejected? then ShowToast(FailureToast(gw.imageUploaded.message))
        else if gw.metadataUploaded.Rejected? then ShowToast(FailureToast(gw.metadataUploaded.message))
        else if gw.minted.Rejected? then ShowToast(FailureToast(gw.minted.message))
        else if gw.minted.value then ShowToast(SuccessToast(mintType))
        else Mint(gw.metadataUploaded.value, quantity)
  {
  }

  /** The mock scores the preview shows when no scores are given: on the card's
      0-10 ladder they are Epic. */
  const MockScores := NftCard.CardScores(8.5, 7.8, 9.0, 8.4)

  lemma MockScoresAreEpic()
    ensures NftCard.CardRarity(Some(MockScores)).name == "Epic"
    ensures NftCard.CardAchievement(Some(MockScores)) == "🌟 Creative Genius"
  {
  }

  /** The image set as preview: `imageUrl` when it is a data URL, else the
      canvas capture when it is non-empty, else the preview stays as it was. */
  function PreviewSource(imageUrl: Option<string>, canvasImageUrl: Option<string>, current: Option<string>)
    : (r: Option<string>)
    ensures r == imageUrl || r == canvasImageUrl || r == current
    ensures r != current ==> Truthy(r)
    ensures Truthy(imageUrl) && "data:" <= imageUrl.value ==> r == imageUrl
    ensures !(Truthy(imageUrl) && "data:" <= imageUrl.value) && Truthy(canvasImageUrl) ==> r == canvasImageUrl
    ensures !(Truthy(imageUrl) && "data:" <= imageUrl.value) && !Truthy(canvasImageUrl) ==> r == current
  {
    if Truthy(imageUrl) && "data:" <= imageUrl.value then imageUrl
    else if Truthy(canvasImageUrl) then canvasImageUrl
    else current
  }

  /** `metadata?.name || "Your Creation"` and `metadata?.type || "Digital Art"`. */
  function PreviewName(metadata: Option<HomePage.Card>): string {
    if metadata.Some? && metadata.value.name != "" then metadata.value.name else "Your Creation"
  }

  function PreviewType(metadata: Option<HomePage.Card>): string {
    if metadata.Some? && metadata.value.cardType != "" then metadata.value.cardType else "Digital Art"
  }

  /** The preview's `prompt` is always "", so the previewed card shows the card's
      own name, or "Your Creation"; without metadata it is drawn in the Digital
      colours. */
  lemma PreviewNameAndColor(metadata: Option<HomePage.Card>)
    ensures NftCard.DisplayName(Some(""), PreviewName(metadata))
      == if metadata.Some? && metadata.value.name != "" then metadata.value.name else "Your Creation"
    ensures metadata.None? ==> NftCard.GetTypeColor(PreviewType(metadata)) == NftCard.ColorEntry(NftCard.Digital)
  {
    NftCard.TierTypesUseDefaultColor(Tiers.Common);
  }

  /** The panel's own state. */
  class MintPanel {
    var amount: string
    var mintType: MintType
    var imagePreview: Option<string>
    var canvasImageUrl: Option<string>
    var localScores: Option<NftCard.CardScores>
    var prompt: string

    /** The amount is always empty or digits (it starts as "1" and only the
        filter changes it), and the prompt is never set. */
    ghost predicate Valid()
      reads this
    {
      AcceptsAmount(amount) && prompt == ""
    }

    constructor ()
      ensures Valid()
      ensures amount == "1" && mintType == DrawingMint && prompt == ""
      ensures imagePreview == None && canvasImageUrl == None && localScores == None
    {
      amount := "1";
      mintType := DrawingMint;
      imagePreview := None;
      canvasImageUrl := None;
      localScores := None;
      prompt := "";
    }

    /** `handleAmountChange`: the new value is kept only if the filter accepts it. */
    method HandleAmountChange(value: string)
      requires Valid()
      modifies this`amount
      ensures Valid()
      ensures amount == if AcceptsAmount(value) then value else old(amount)
    {
      if value == "" || (|value| > 0 && IsDigits(value)) {
        amount := value;
      }
    }

    method SetMintType(t: MintType)
      modifies this`mintType
      ensures mintType == t
    {
      mintType := t;
    }

    /** The effect that captures the canvas when no `imageUrl` is given;
        `capture` is what `toDataURL` returned (`None` when there is no canvas
        or the capture threw). */
    method CaptureCanvas(imageUrl: Option<string>, capture: Option<string>)
      modifies this`canvasImageUrl
      ensures canvasImageUrl == if !Truthy(imageUrl) && capture.Some? then capture else old(canvasImageUrl)
    {
      if !Truthy(imageUrl) && capture.Some? {
        canvasImageUrl := capture;
      }
    }

    /** The effect that refreshes the preview image and the displayed scores
        (the mock scores when none are given). */
    method RefreshPreview(imageUrl: Option<string>, scores: Option<NftCard.CardScores>)
      modifies this`imagePreview, this`localScores
      ensures imagePreview == PreviewSource(imageUrl, canvasImageUrl, old(imagePreview))
      ensures localScores == Some(scores.GetOr(MockScores))
    {
      if Truthy(imageUrl) && "data:" <= imageUrl.value {
        imagePreview := imageUrl;
      } else if Truthy(canvasImageUrl) {
        imagePreview := canvasImageUrl;
      }
      localScores := Some(scores.GetOr(MockScores));
    }

    /** The outcome of the input checks for the panel's current state. */
    function Checks(imageUrl: Option<string>, metadata: Option<HomePage.Card>, wallet: Wallet): Option<Toast>
      reads this
    {
      ValidationError(FinalImage(imageUrl, canvasImageUrl), mintType, metadata, wallet.address)
    }

    /** `handleMint`. The first failing input check toasts and stops. Off the
        target network it asks for a switch and stops either way, after a toast.
        Otherwise it runs the stages, minting `parseInt(amount) || 1` tokens,
        which is at least 1. */
    method HandleMint(imageUrl: Option<string>, metadata: Option<HomePage.Card>, wallet: Wallet,
                      zoraChainId: int, gw: Gateway) returns (calls: seq<Call>)
      requires Valid()
      ensures Checks(imageUrl, metadata, wallet).Some? ==> calls == [ShowToast(Checks(imageUrl, metadata, wallet).value)]
      ensures Checks(imageUrl, metadata, wallet).None? && wallet.chainId != Some(zoraChainId) ==>
        calls == [SwitchChain(zoraChainId), ShowToast(if gw.switchSucceeds then NetworkChanged else SwitchFailed)]
      ensures Checks(imageUrl, metadata, wallet).None? && wallet.chainId == Some(zoraChainId) ==>
        calls == SubmitCalls(FinalImage(imageUrl, canvasImageUrl).value, mintType, metadata, ParseAmount(amount), gw)
      ensures forall i :: 0 <= i < |calls| && calls[i].Mint? ==> calls[i].quantity >= 1
    {
      var finalImageUrl := FinalImage(imageUrl, canvasImageUrl);
      if !Truthy(finalImageUrl) {
        return [ShowToast(MissingImage)];
      }
      if mintType == CardMint && metadata.None? {
        return [ShowToast(MissingMetadata)];
      }
      if !Truthy(wallet.address) {
        return [ShowToast(ConnectWallet)];
      }
      if wallet.chainId != Some(zoraChainId) {
        calls := [SwitchChain(zoraChainId)];
        if gw.switchSucceeds {
          return calls + [ShowToast(NetworkChanged)];
        }
        return calls + [ShowToast(SwitchFailed)];
      }
      var quantity := ParseAmount(amount);
      SubmitMintsAfterUploads(finalImageUrl.value, mintType, metadata, quantity, gw);
      calls := Submit(finalImageUrl.value, mintType, metadata, quantity, gw);
    }
  }
}
