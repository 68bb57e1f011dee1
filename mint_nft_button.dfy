/** The mint dialog button: it checks title, scores, prompt and account,
    raises the busy flag, captures the canvas, uploads the image and a
    metadata document, prepares and sends a mint transaction for one token,
    waits for its receipt, and clears the busy flag on every path. Its own
    upload helper always throws, so as the component is written no attempt
    gets past the image upload. */
module MintNftButton {
  import opened Wrappers
  import opened Strings
  import opened Toasts
  import opened NftMetadata

  /** The scores handed to the button. */
  datatype ButtonScores = ButtonScores(creativity: real, promptAdherence: real, artisticQuality: real,
                                       overall: real, feedback: string)

  /** What is handed to the upload helper: the canvas's data URL, or the
      metadata document (serialised with `JSON.stringify`). */
  datatype Payload = DataUrl(data: string) | Json(doc: Document)

  /** The request for the protocol client's `mint`. */
  datatype MintRequest = MintRequest(tokenContract: string, mintType: string, quantityToMint: int,
                                     tokenURI: string, minterAccount: string)

  /** One step of an attempt: a write of the busy flag, or a call outward. */
  datatype Call =
    | MintingFlag(on: bool)
    | Upload(payload: Payload)
    | PrepareMint(request: MintRequest)
    | WriteContract(parameters: string)
    | WaitForReceipt(hash: string)
    | ShowToast(toast: Toast)

  /** How the chain calls settle: the prepared transaction parameters, the
      transaction hash, and the receipt's status. */
  datatype Chain = Chain(prepared: Settled<string>, written: Settled<string>, receipt: Settled<string>)

  const InputError := Toast("Error", "Please provide a title and ensure your wallet is connected.", true)
  const MintFailed := Toast("Error", "Failed to mint NFT. Please try again later.", true)

  /** The success toast, quoting the artwork's title. */
  function MintedToast(title: string): Toast {
    Toast("NFT Minted Successfully!", "Your artwork \"" + title + "\" has been minted as an NFT.", false)
  }

  /** The success toast is not an error toast, and different titles give
      different toasts: the title can be read back from the description. */
  lemma MintedToastNamesTitle(a: string, b: string)
    ensures !MintedToast(a).destructive
    ensures MintedToast(a) == MintedToast(b) <==> a == b
  {
    var prefix := "Your artwork \"";
    var suffix := "\" has been minted as an NFT.";
    var da := MintedToast(a).description;
    var db := MintedToast(b).description;
    assert da == prefix + a + suffix && db == prefix + b + suffix;
    if da == db {
      assert |a| == |b|;
      assert a == da[|prefix|..|prefix| + |a|];
      assert b == db[|prefix|..|prefix| + |b|];
    }
  }

  /** The guard of `handleMint`: a title that is not blank, scores, a non-empty
      prompt and an account. */
  predicate GuardPasses(title: string, scores: Option<ButtonScores>, prompt: Option<string>, address: Option<string>) {
    Trim(title) != "" && scores.Some? && Truthy(prompt) && Truthy(address)
  }

  /** The confirm button's `disabled`. */
  predicate ConfirmDisabled(isMinting: bool, title: string, address: Option<string>) {
    isMinting || Trim(title) == "" || !Truthy(address)
  }

  /** The dialog trigger's `disabled`; the `disabled` prop is `true` when the
      caller leaves it out. */
  predicate TriggerDisabled(disabled: Option<bool>, address: Option<string>) {
    disabled.GetOr(true) || !Truthy(address)
  }

  /** A passing guard means the confirm button is enabled while not busy; an
      enabled button passes the guard once scores and a prompt are present,
      which the button itself does not check. */
  lemma ConfirmAndGuard(isMinting: bool, title: string, scores: Option<ButtonScores>, prompt: Option<string>,
                        address: Option<string>)
    ensures GuardPasses(title, scores, prompt, address) ==> !ConfirmDisabled(false, title, address)
    ensures !ConfirmDisabled(isMinting, title, address) && scores.Some? && Truthy(prompt) ==>
      GuardPasses(title, scores, prompt, address)
    ensures ConfirmDisabled(isMinting, title, address) <==> isMinting || IsBlank(title) || !Truthy(address)
  {
  }

  /** The trigger and the confirm button agree about the account: with no
      account both are disabled, and an enabled confirm button means the
      trigger is enabled only when its `disabled` prop is given as `false`,
      since the prop defaults to `true`. */
  lemma TriggerAndConfirm(disabled: Option<bool>, isMinting: bool, title: string, address: Option<string>)
    ensures !Truthy(address) ==> TriggerDisabled(disabled, address) && ConfirmDisabled(isMinting, title, address)
    ensures !ConfirmDisabled(isMinting, title, address) ==>
      (TriggerDisabled(disabled, address) <==> disabled != Some(false))
  {
  }

  const Preamble := "Artwork created from prompt: "

  /** The metadata document: the title as name, the prompt in the
      description, the uploaded image, and five attributes in a fixed order. */
  function BuildMetadata(title: string, prompt: string, scores: ButtonScores, imageUrl: string): (d: Document)
    ensures d.name == title && d.image == imageUrl && d.properties == None
    ensures |d.description| == |Preamble| + |prompt|
    ensures d.description[..|Preamble|] == Preamble && d.description[|Preamble|..] == prompt
    ensures TraitTypes(d.attributes) == ["Creativity", "Prompt Adherence", "Artistic Quality", "Overall Score", "Prompt"]
    ensures [d.attributes[0].value, d.attributes[1].value, d.attributes[2].value, d.attributes[3].value]
      == [RealValue(scores.creativity), RealValue(scores.promptAdherence), RealValue(scores.artisticQuality),
          RealValue(scores.overall)]
    ensures d.attributes[4].value == StrValue(prompt)
  {
    Document(title, Preamble + prompt, imageUrl,
             [ Attribute("Creativity", RealValue(scores.creativity)),
               Attribute("Prompt Adherence", RealValue(scores.promptAdherence)),
               Attribute("Artistic Quality", RealValue(scores.artisticQuality)),
               Attribute("Overall Score", RealValue(scores.overall)),
               Attribute("Prompt", StrValue(prompt)) ],
             None)
  }

  /** The component's own `uploadToIPFS`: it always throws. */
  function LocalUpload(payload: Payload): (r: Settled<string>)
    ensures r.Rejected?
  {
    Rejected("IPFS upload not implemented")
  }

  /** Whether an attempt that passed the guard mints: the canvas exists, both
      uploads resolve, the transaction is prepared and written, and the receipt
      reports "success". */
  predicate Succeeds(title: string, prompt: string, scores: ButtonScores, canvas: Option<string>,
                     upload: Payload -> Settled<string>, chain: Chain)
  {
    && canvas.Some?
    && upload(DataUrl(canvas.value)).Resolved?
    && upload(Json(BuildMetadata(title, prompt, scores, upload(DataUrl(canvas.value)).value))).Resolved?
    && chain.prepared.Resolved? && chain.written.Resolved?
    && chain.receipt == Resolved("success")
  }

  /** The component's own upload helper makes every attempt fail. */
  lemma LocalUploadNeverSucceeds(title: string, prompt: string, scores: ButtonScores, canvas: Option<string>,
                                 chain: Chain)
    ensures !Succeeds(title, prompt, scores, canvas, LocalUpload, chain)
  {
    if canvas.Some? {
      assert LocalUpload(DataUrl(canvas.value)).Rejected?;
    }
  }

  /** The dialog's state. */
  class MintDialog {
    var isOpen: bool
    var title: string
    var isMinting: bool
    var mintingComplete: bool

    constructor ()
      ensures !isOpen && title == "" && !isMinting && !mintingComplete
    {
      isOpen := false;
      title := "";
      isMinting := false;
      mintingComplete := false;
    }

    method SetTitle(value: string)
      modifies this`title
      ensures title == value
    {
      title := value;
    }

    /** `handleMint`, with the upload helper and the chain calls as inputs;
        `canvas` is the canvas's data URL, `None` when there is no canvas or
        `toDataURL` throws, which the `catch` treats alike.
        A failed guard only toasts. Otherwise the busy flag is raised first and
        cleared last, `mintingComplete` is set exactly on success, and every
        prepared mint is for one token at the uploaded document's locator.
        Its calls are `MintCalls`, whose properties `MintCallsTrace` states.
        The writes of the busy flag are recorded in `calls` in the order the
        component makes them, between its outward calls; the fields hold the
        values they end with. */
    method HandleMint(scores: Option<ButtonScores>, prompt: Option<string>, address: Option<string>,
                      canvas: Option<string>, contract: string, upload: Payload -> Settled<string>, chain: Chain)
      returns (calls: seq<Call>)
      modifies this`isMinting, this`mintingComplete
      ensures calls == MintCalls(title, scores, prompt, address, canvas, contract, upload, chain)
      ensures !GuardPasses(title, scores, prompt, address) ==>
        isMinting == old(isMinting) && mintingComplete == old(mintingComplete)
      ensures GuardPasses(title, scores, prompt, address) ==>
        && !isMinting
        && mintingComplete == (old(mintingComplete) || Succeeds(title, prompt.value, scores.value, canvas, upload, chain))
    {
      var t := title;
      var started, succeeded;
      calls, started, succeeded := MintSteps(t, scores, prompt, address, canvas, contract, upload, chain);
      if started {
        isMinting := true;
        if succeeded {
          mintingComplete := true;
        }
        isMinting := false;
      }
      assert title == t;
    }

    /** `handleMint` bound to the component's own upload helper, as the
        component is written: an attempt past the guard always ends with the
        failure toast and the flag cleared, prepares no mint, and leaves
        `mintingComplete` as it was. */
    method HandleMintAsWritten(scores: Option<ButtonScores>, prompt: Option<string>, address: Option<string>,
                               canvas: Option<string>, contract: string, chain: Chain)
      returns (calls: seq<Call>)
      modifies this`isMinting, this`mintingComplete
      ensures mintingComplete == old(mintingComplete)
      ensures !GuardPasses(title, scores, prompt, address) ==>
        calls == [ShowToast(InputError)] && isMinting == old(isMinting)
      ensures GuardPasses(title, scores, prompt, address) ==>
        && !isMinting && |calls| >= 3
        && calls[|calls| - 2] == ShowToast(MintFailed) && calls[|calls| - 1] == MintingFlag(false)
      ensures forall i :: 0 <= i < |calls| ==> !calls[i].PrepareMint?
    {
      calls := HandleMint(scores, prompt, address, canvas, contract, LocalUpload, chain);
      MintCallsTrace(title, scores, prompt, address, canvas, contract, LocalUpload, chain);
      if GuardPasses(title, scores, prompt, address) {
        LocalUploadNeverSucceeds(title, prompt.value, scores.value, canvas, chain);
      }
      forall i | 0 <= i < |calls| ensures !calls[i].PrepareMint? {
        if i >= 1 && calls[i - 1].Upload? {
          assert LocalUpload(calls[i - 1].payload).Rejected?;
        }
      }
    }
  }

  /** The calls of `handleMint`: a failed guard only toasts; otherwise the
      attempt runs between the two writes of the busy flag. */
  function MintCalls(title: string, scores: Option<ButtonScores>, prompt: Option<string>, address: Option<string>,
                     canvas: Option<string>, contract: string, upload: Payload -> Settled<string>, chain: Chain)
    : seq<Call>
  {
    if !GuardPasses(title, scores, prompt, address) then [ShowToast(InputError)]
    else
      [MintingFlag(true)]
      + AttemptCalls(title, prompt.value, scores.value, address.value, canvas, contract, upload, chain)
      + [MintingFlag(false)]
  }

  /** What holds of the calls `handleMint` makes: a failed guard only toasts.
      Otherwise the busy flag is raised first and cleared last and written nowhere else, the
      last toast is the success toast exactly when `Succeeds`, a missing canvas
      toasts without uploading, and every prepared mint is for one token of
      the contract at the locator the preceding document upload returned. */
  predicate MintTrace(calls: seq<Call>, title: string, scores: Option<ButtonScores>, prompt: Option<string>,
                      address: Option<string>, canvas: Option<string>, contract: string,
                      upload: Payload -> Settled<string>, chain: Chain)
  {
    && (!GuardPasses(title, scores, prompt, address) ==> calls == [ShowToast(InputError)])
    && (GuardPasses(title, scores, prompt, address) ==>
         && FlagBracketed(calls)
         && calls[|calls| - 2] == ShowToast(
              if Succeeds(title, prompt.value, scores.value, canvas, upload, chain) then MintedToast(title) else MintFailed)
         && (canvas.None? ==> calls == [MintingFlag(true), ShowToast(MintFailed), MintingFlag(false)]))
    && MintsAtDocument(calls, contract, upload)
  }

  /** The busy flag is raised first, cleared last, and written nowhere else. */
  predicate FlagBracketed(calls: seq<Call>) {
    && |calls| >= 3 && calls[0] == MintingFlag(true) && calls[|calls| - 1] == MintingFlag(false)
    && forall i :: 0 < i < |calls| - 1 ==> !calls[i].MintingFlag?
  }

  /** Every prepared mint is for one token of `contract`, of type "1155", at
      the locator that the document upload just before it returned. */
  predicate MintsAtDocument(calls: seq<Call>, contract: string, upload: Payload -> Settled<string>) {
    forall i :: 1 <= i < |calls| && calls[i].PrepareMint? ==>
      && calls[i].request.quantityToMint == 1 && calls[i].request.mintType == "1155"
      && calls[i].request.tokenContract == contract
      && calls[i - 1].Upload? && calls[i - 1].payload.Json?
      && upload(calls[i - 1].payload) == Resolved(calls[i].request.tokenURI)
  }

  /** `handleMint` before its writes to the fields: the calls it makes, with
      `started` telling whether the guard passed and `succeeded` whether the
      attempt minted. */
  method MintSteps(title: string, scores: Option<ButtonScores>, prompt: Option<string>, address: Option<string>,
                   canvas: Option<string>, contract: string, upload: Payload -> Settled<string>, chain: Chain)
    returns (calls: seq<Call>, started: bool, succeeded: bool)
    ensures calls == MintCalls(title, scores, prompt, address, canvas, contract, upload, chain)
    ensures started == GuardPasses(title, scores, prompt, address)
    ensures succeeded == (started && Succeeds(title, prompt.value, scores.value, canvas, upload, chain))
  {
    if Trim(title) == "" || scores.None? || !Truthy(prompt) || !Truthy(address) {
      return [ShowToast(InputError)], false, false;
    }
    started := true;
    var attempt;
    attempt, succeeded := Attempt(title, prompt.value, scores.value, address.value, canvas, contract, upload, chain);
    calls := [MintingFlag(true)] + attempt + [MintingFlag(false)];
  }

  /** The calls of `handleMint` have every property `MintTrace` lists. */
  lemma MintCallsTrace(title: string, scores: Option<ButtonScores>, prompt: Option<string>, address: Option<string>,
                       canvas: Option<string>, contract: string, upload: Payload -> Settled<string>, chain: Chain)
    ensures MintTrace(MintCalls(title, scores, prompt, address, canvas, contract, upload, chain),
                      title, scores, prompt, address, canvas, contract, upload, chain)
  {
    if GuardPasses(title, scores, prompt, address) {
      var attempt := AttemptCalls(title, prompt.value, scores.value, address.value, canvas, contract, upload, chain);
      AttemptShape(title, prompt.value, scores.value, address.value, canvas, contract, upload, chain);
      AttemptLast(title, prompt.value, scores.value, address.value, canvas, contract, upload, chain);
      AttemptWritesNoFlag(title, prompt.value, scores.value, address.value, canvas, contract, upload, chain);
      AttemptMints(title, prompt.value, scores.value, address.value, canvas, contract, upload, chain);
      BracketedAttempt(attempt, MintCalls(title, scores, prompt, address, canvas, contract, upload, chain),
                       contract, upload);
    }
  }

  /** Bracketing an attempt by the two writes of the busy flag keeps its
      last step just before the final write, adds no other flag write, and
      keeps every prepared mint right after the upload that produced its
      locator. */
  lemma BracketedAttempt(attempt: seq<Call>, calls: seq<Call>, contract: string, upload: Payload -> Settled<string>)
    requires |attempt| >= 1 && forall i :: 0 <= i < |attempt| ==> !attempt[i].MintingFlag?
    requires PreparesAtDocument(attempt, contract, upload)
    requires calls == [MintingFlag(true)] + attempt + [MintingFlag(false)]
    ensures FlagBracketed(calls) && MintsAtDocument(calls, contract, upload)
    ensures calls[|calls| - 2] == attempt[|attempt| - 1]
    ensures |attempt| == 1 ==> calls == [MintingFlag(true), attempt[0], MintingFlag(false)]
  {
    assert forall i :: 1 <= i < |calls| - 1 ==> calls[i] == attempt[i - 1];
  }

  /** The calls of the `try` block and its `catch`, stage by stage: the
      canvas capture is uploaded, then the metadata document built on the
      image's locator, then a one-token mint at the document's locator is
      prepared, written and waited for. A missing canvas, a rejection at any
      stage, and a receipt whose status is not "success" end the attempt with
      the failure toast; a "success" receipt ends it with the success toast. */
  function AttemptCalls(title: string, prompt: string, scores: ButtonScores, address: string, canvas: Option<string>,
                        contract: string, upload: Payload -> Settled<string>, chain: Chain): seq<Call>
  {
    match canvas
    case None => [ShowToast(MintFailed)]
    case Some(imageData) =>
      var uploadImage := Upload(DataUrl(imageData));
      match upload(DataUrl(imageData))
      case Rejected(_) => [uploadImage, ShowToast(MintFailed)]
      case Resolved(imageUrl) =>
        var metadata := BuildMetadata(title, prompt, scores, imageUrl);
        var uploadDocument := Upload(Json(metadata));
        match upload(Json(metadata))
        case Rejected(_) => [uploadImage, uploadDocument, ShowToast(MintFailed)]
        case Resolved(metadataUrl) =>
          var prepare := PrepareMint(MintRequest(contract, "1155", 1, metadataUrl, address));
          match chain.prepared
          case Rejected(_) => [uploadImage, uploadDocument, prepare, ShowToast(MintFailed)]
          case Resolved(parameters) =>
            match chain.written
            case Rejected(_) => [uploadImage, uploadDocument, prepare, WriteContract(parameters), ShowToast(MintFailed)]
            case Resolved(hash) =>
              [ uploadImage, uploadDocument, prepare, WriteContract(parameters), WaitForReceipt(hash),
                ShowToast(if chain.receipt == Resolved("success") then MintedToast(title) else MintFailed) ]
  }

  /** The first two calls of an attempt: the canvas upload, then, once it
      resolved, the upload of the document built on the image's locator; and
      a successful attempt makes exactly the six calls of the `try` block. */
  lemma AttemptShape(title: string, prompt: string, scores: ButtonScores, address: string, canvas: Option<string>,
                     contract: string, upload: Payload -> Settled<string>, chain: Chain)
    ensures var calls := AttemptCalls(title, prompt, scores, address, canvas, contract, upload, chain);
      && (canvas.None? ==> calls == [ShowToast(MintFailed)])
      && (canvas.Some? ==> |calls| >= 2 && calls[0] == Upload(DataUrl(canvas.value)))
      && (canvas.Some? && upload(DataUrl(canvas.value)).Resolved? ==>
            |calls| >= 3 &&
            calls[1] == Upload(Json(BuildMetadata(title, prompt, scores, upload(DataUrl(canvas.value)).value))))
  {
  }

  /** A successful attempt uploads the image and its document, prepares the
      one-token mint at the document's locator, writes it, waits for the
      receipt, and toasts success. */
  lemma SucceededAttempt(title: string, prompt: string, scores: ButtonScores, address: string, canvas: Option<string>,
                         contract: string, upload: Payload -> Settled<string>, chain: Chain)
    requires Succeeds(title, prompt, scores, canvas, upload, chain)
    ensures var doc := BuildMetadata(title, prompt, scores, upload(DataUrl(canvas.value)).value);
      AttemptCalls(title, prompt, scores, address, canvas, contract, upload, chain) ==
        [ Upload(DataUrl(canvas.value)), Upload(Json(doc)),
          PrepareMint(MintRequest(contract, "1155", 1, upload(Json(doc)).value, address)),
          WriteContract(chain.prepared.value), WaitForReceipt(chain.written.value),
          ShowToast(MintedToast(title)) ]
  {
  }

  /** An attempt ends with the success toast exactly when it `Succeeds`, and
      with the failure toast otherwise. */
  lemma AttemptLast(title: string, prompt: string, scores: ButtonScores, address: string, canvas: Option<string>,
                    contract: string, upload: Payload -> Settled<string>, chain: Chain)
    ensures var calls := AttemptCalls(title, prompt, scores, address, canvas, contract, upload, chain);
      |calls| >= 1 &&
      calls[|calls| - 1] ==
        ShowToast(if Succeeds(title, prompt, scores, canvas, upload, chain) then MintedToast(title) else MintFailed)
  {
  }

  /** An attempt writes no busy flag. */
  lemma AttemptWritesNoFlag(title: string, prompt: string, scores: ButtonScores, address: string,
                            canvas: Option<string>, contract: string, upload: Payload -> Settled<string>, chain: Chain)
    ensures var calls := AttemptCalls(title, prompt, scores, address, canvas, contract, upload, chain);
      forall i :: 0 <= i < |calls| ==> !calls[i].MintingFlag?
  {
  }

  /** Every mint an attempt prepares is for one token of `contract`, of type
      "1155", at the locator the document upload just before it returned. */
  lemma AttemptMints(title: string, prompt: string, scores: ButtonScores, address: string, canvas: Option<string>,
                     contract: string, upload: Payload -> Settled<string>, chain: Chain)
    ensures PreparesAtDocument(AttemptCalls(title, prompt, scores, address, canvas, contract, upload, chain),
                               contract, upload)
  {
    var calls := AttemptCalls(title, prompt, scores, address, canvas, contract, upload, chain);
    forall i | 0 <= i < |calls| && calls[i].PrepareMint?
      ensures i == 2 && calls[1] == Upload(Json(BuildMetadata(title, prompt, scores, upload(DataUrl(canvas.value)).value)))
    {
    }
  }

  /** Every mint an attempt prepares is for the connected account. */
  lemma AttemptMintsFor(title: string, prompt: string, scores: ButtonScores, address: string, canvas: Option<string>,
                        contract: string, upload: Payload -> Settled<string>, chain: Chain)
    ensures var calls := AttemptCalls(title, prompt, scores, address, canvas, contract, upload, chain);
      forall i :: 0 <= i < |calls| && calls[i].PrepareMint? ==> calls[i].request.minterAccount == address
  {
  }

  /** Every prepared mint follows a document upload, and is for one token of
      `contract`, of type "1155", at the locator that upload returned. */
  predicate PreparesAtDocument(calls: seq<Call>, contract: string, upload: Payload -> Settled<string>) {
    forall i :: 0 <= i < |calls| && calls[i].PrepareMint? ==>
      && i >= 1 && calls[i].request.quantityToMint == 1 && calls[i].request.mintType == "1155"
      && calls[i].request.tokenContract == contract
      && calls[i - 1].Upload? && calls[i - 1].payload.Json?
      && upload(calls[i - 1].payload) == Resolved(calls[i].request.tokenURI)
  }

  /** The `try` block and its `catch`, run stage by stage: it makes exactly
      the calls of `AttemptCalls` and succeeds exactly when `Succeeds`. */
  method Attempt(title: string, prompt: string, scores: ButtonScores, address: string, canvas: Option<string>,
                 contract: string, upload: Payload -> Settled<string>, chain: Chain)
    returns (calls: seq<Call>, succeeded: bool)
    ensures calls == AttemptCalls(title, prompt, scores, address, canvas, contract, upload, chain)
    ensures succeeded == Succeeds(title, prompt, scores, canvas, upload, chain)
  {
    if canvas.None? {
      return [ShowToast(MintFailed)], false;
    }
    var imageData := canvas.value;
    calls := [Upload(DataUrl(imageData))];
    var imageUrl := upload(DataUrl(imageData));
    if imageUrl.Rejected? {
      return calls + [ShowToast(MintFailed)], false;
    }
    var metadata := BuildMetadata(title, prompt, scores, imageUrl.value);
    calls := calls + [Upload(Json(metadata))];
    var metadataUrl := upload(Json(metadata));
    if metadataUrl.Rejected? {
      return calls + [ShowToast(MintFailed)], false;
    }
    var request := MintRequest(contract, "1155", 1, metadataUrl.value, address);
    calls := calls + [PrepareMint(request)];
    if chain.prepared.Rejected? {
      return calls + [ShowToast(MintFailed)], false;
    }
    calls := calls + [WriteContract(chain.prepared.value)];
    if chain.written.Rejected? {
      return calls + [ShowToast(MintFailed)], false;
    }
    calls := calls + [WaitForReceipt(chain.written.value)];
    if chain.receipt.Rejected? || chain.receipt.value != "success" {
      return calls + [ShowToast(MintFailed)], false;
    }
    calls := calls + [ShowToast(MintedToast(title))];
    succeeded := true;
  }
}
