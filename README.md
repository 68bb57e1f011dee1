# Promraw score-to-card and minting core, in Dafny

Promraw is a browser game: the player draws to a prompt, an external assessor
scores the drawing, and the player may mint the drawing, or a "trading card"
that combines the drawing with its scores, as an NFT on the Zora network. This
project models the two pieces of that code that are sequential logic:

* **Score-to-card derivation and display** (`app/page.tsx`,
  `components/nft-card.tsx`). The home page turns the four scores into a card:
  a type tier from `overall` (thresholds 0.6/0.7/0.8/0.9), hit points
  `floor(overall*100)`, three fixed moves whose damage is `floor(sub*50)`, and
  the feedback as description. The card component picks a colour scheme by type
  (with a `Digital` default), a rarity and an achievement from `overall` on a
  **0-10** ladder (thresholds 6/7/8/9), defaults when scores are absent, a
  "prompt or name" fallback and the download's file name.
* **Mint-attempt sequencing** (`components/MintNFT.tsx`,
  `components/mint-nft-button.tsx`). The mint panel runs an ordered chain of
  input checks, a network rule that always returns without minting, and then
  the stages fetch → upload image → build and upload metadata → mint. The
  dialog button checks its inputs, raises a busy flag, captures the canvas,
  uploads twice, prepares, sends and confirms a transaction, and clears the flag
  in `finally`.

Every external call is an input. The canvas capture is an `Option`: `None`
when there is no canvas or the capture throws. The network switch is a `bool`
(`Gateway.switchSucceeds`). The image fetch, the IPFS uploads, the mint, the
contract write and the receipt are `Settled` values that resolve with a result
or reject with a message (`Wrappers.Settled`); the button reaches its uploads
through an `upload` function that returns such a value.
The handlers return the list of calls they make, toasts and busy-flag writes
included, in order, so "never uploads", "returns before minting" and "the flag
is cleared last" are statements about that list.

Module layout: `Wrappers` (Option, Settled), `Strings` (JavaScript truthiness,
`trim`, digit strings, `parseInt`, integer printing, `join`), `Tiers` (the
five-step ladder shared by both card files), `Toasts`, `NftMetadata` (the
metadata document shape), then one module per source file: `HomePage`,
`NftCard`, `MintNft`, `MintNftButton`.

## The two scales

The page's `getTypeFromScore` (app/page.tsx:75-81) tests 0.9/0.8/0.7/0.6, and
the page passes the same 0-1 scores to the card component, whose
`getRarityLevel` and `getAchievement` (components/nft-card.tsx:76-91) test
9/8/7/6. Both ladders are stated by one predicate, `Tiers.IsTierFor(score,
unit, t)`, with unit 0.1 and 1.0. `HomePage.RarityIsTypeOfTenth` proves that
the card's rarity of a score is the page's type of a tenth of that score.
`HomePage.ScaleMismatch` proves that for every overall score in [0,1] the card
shows Common and "Budding Artist", whatever type the page gave it.
`HomePage.ScaleMismatchExample` gives an instance: overall 0.95 is a Legendary
card shown as Common. The mint panel's preview mock scores (8.5/7.8/9.0/8.4)
and the button's "/10" labels use the 0-10 scale, so the code does not settle
which scale the assessor returns. The model keeps both ladders as written.

## Behaviour of the code worth knowing

* Scores are not clamped. Hit points and damages are plain floors, so they
  leave [0,100] and [0,50] for scores outside [0,1]. The range lemmas
  therefore require scores in [0,1].
* The type colour lookup never matches a card typed by the page: tier names
  are not keys of the colour table, so they all get the `Digital` entry
  (`NftCard.TierTypesUseDefaultColor`).
* Neither handler checks `isMinting` itself. In `MintNFT.tsx` the flag comes
  from a hook that is not part of this model and is read only while
  rendering: by the button's `disabled` (line 251) and its label (line 314).
  In `mint-nft-button.tsx` it is read only while rendering as well: by the confirm
  button's `disabled` (line 214), the title input's `disabled` (line 178) and
  the button's label (line 215).
* A mint in `MintNFT.tsx` that resolves with a falsy result ends with no toast.
* Because the button component's own `uploadToIPFS` always throws, no attempt
  from it ever mints (`MintNftButton.LocalUploadNeverSucceeds`,
  `MintNftButton.MintDialog.HandleMintAsWritten`).

## Model

| member | source | states |
|---|---|---|
| `HomePage.TypeFromScore` | app/page.tsx:75-81 | the tier is the one whose inclusive lower bound 0.6/0.7/0.8/0.9 the score reached (`IsTierFor` with unit 0.1): Legendary from 0.9, Epic from 0.8, Rare from 0.7, Uncommon from 0.6, else Common |
| `HomePage.TypeMonotone` | app/page.tsx:75-81 | raising `overall` never lowers the type tier |
| `HomePage.HitPoints` | app/page.tsx:57 | hit points are the largest integer not above a hundred times `overall` |
| `HomePage.Damage` | app/page.tsx:58-62 | a move's damage is the largest integer not above fifty times its sub-score |
| `HomePage.Moves` | app/page.tsx:58-62 | the three moves of a card; their order and damages are stated by `HomePage.CardMoves` |
| `HomePage.BuildCard` | app/page.tsx:54-64 | the card built from the scores; what it depends on is stated by `HomePage.CardDependencies` and `HomePage.CardMoves` |
| `HomePage.HitPointsMonotone` | app/page.tsx:57 | hit points are non-decreasing in `overall` and are the largest integer not above `overall*100` |
| `HomePage.HitPointsInRange` | app/page.tsx:57 | `overall` in [0,1] gives hit points in [0,100] |
| `HomePage.DamageInRange` | app/page.tsx:58-62 | a sub-score in [0,1] gives damage in [0,50] |
| `HomePage.CardMoves` | app/page.tsx:58-62 | exactly three moves, in the order Creative Strike, Prompt Blast, Artistic Wave, with damage from creativity, promptAdherence and artisticQuality; for scores in [0,1] hp and every damage are in range |
| `HomePage.CardDependencies` | app/page.tsx:54-64 | type and hp depend only on `overall`, moves only on the sub-scores, the description is the feedback unchanged |
| `HomePage.CardTypeDecidesTier` | app/page.tsx:56 | two cards carry the same type string exactly when the page put their overall scores in the same tier |
| `HomePage.WorkedExample` | app/page.tsx:54-64 | scores 0.85/0.7/0.9 with overall 0.84 give type Epic, hp 84 and damages 42, 35, 45 |
| `HomePage.RarityIsTypeOfTenth` | components/nft-card.tsx:76-91 | the card's rarity and achievement of a score are those of the page's type of a tenth of the score |
| `HomePage.ScaleMismatch` | components/nft-card.tsx:77-81 | every overall score in [0,1], the page's scale, shows rarity Common and "Budding Artist" on the card |
| `HomePage.CardScoresOf` | app/page.tsx:154-159 | the four scores the page hands to the card component, unchanged; used by `HomePage.ShownRarity` |
| `HomePage.ShownRarity` | app/page.tsx:150-159 | the card component, handed the scores of a page card built from scores in [0,1], shows Common and "Budding Artist" beside the type the page gave the card |
| `HomePage.ScaleMismatchExample` | app/page.tsx:76 | overall 0.95 is typed Legendary by the page and shown as Common by the card |
| `HomePage.Home.constructor` | app/page.tsx:21-37 | initial state: not submitted, the loading prompt, no scores, card or image |
| `HomePage.Home.HandlePromptUpdate` | app/page.tsx:39-41 | only the current prompt changes |
| `HomePage.Home.HandleScoreUpdate` | app/page.tsx:43-73 | afterwards the stored scores equal the input, `hasSubmitted` is true, the card is the one built from the scores, and the image is replaced only when a canvas was captured; the derived-card invariant is kept |
| `HomePage.Home.ShownCardExists` | app/page.tsx:131-153 | whenever the results are shown the card exists (the `nftCard!` assertion holds) and is typed from the stored overall score |
| `HomePage.Home.ShowsResults` | app/page.tsx:131 | the score, card and mint panels are shown exactly when a submission has happened and scores are stored; `ShownCardExists` proves a card can then be built from those scores |
| `HomePage.Home.CardImage` | app/page.tsx:152 | the card image is the stored image, or "" when there is none |
| `Tiers.TierUnique` | components/nft-card.tsx:76-82 | at most one tier fits a score on a ladder |
| `Tiers.TierExists` | components/nft-card.tsx:76-82 | on a ladder with a non-negative unit every score has a tier |
| `Tiers.TierMonotone` | app/page.tsx:75-81 | on any ladder a higher score never has a lower tier |
| `Tiers.TierRescale` | components/nft-card.tsx:76-82 | the 0-10 ladder of a score is the 0-1 ladder of a tenth of it |
| `Tiers.NameInjective` | app/page.tsx:76-80 | distinct tiers have distinct names, so the type string on a card determines its tier (`HomePage.CardTypeDecidesTier`) |
| `NftCard.LookupKey` | components/nft-card.tsx:31-70 | the colour-table key spelled by the type string, if any, and none exactly when no key has that name |
| `NftCard.GetTypeColor` | components/nft-card.tsx:30-71 | each of the six listed types gets its own entry, every other string the `Digital` entry |
| `NftCard.TierTypesUseDefaultColor` | components/nft-card.tsx:70 | every tier name the page supplies as type, and "Digital Art", gets the `Digital` entry |
| `NftCard.RarityEntry` | components/nft-card.tsx:77-81 | the rarity entry of a tier carries that tier's name |
| `NftCard.RarityLevel` | components/nft-card.tsx:76-82 | the rarity is the entry of the score's tier with inclusive bounds 6/7/8/9: Legendary from 9, Epic from 8, Rare from 7, Uncommon from 6, else Common |
| `NftCard.Achievement` | components/nft-card.tsx:85-91 | the achievement is the text of the score's tier on the same 0-10 ladder |
| `NftCard.RarityMatchesAchievement` | components/nft-card.tsx:76-91 | rarity and achievement always come from the same tier (Legendary with Master Artist ... Common with Budding Artist) |
| `NftCard.CardRarity` | components/nft-card.tsx:93 | without scores the rarity is Common, otherwise the rarity of `overall` |
| `NftCard.CardAchievement` | components/nft-card.tsx:94 | without scores the achievement is "Budding Artist", otherwise that of `overall` |
| `NftCard.DisplayName` | components/nft-card.tsx:97-100 | the displayed name is the prompt when it is a non-empty string, the card's name otherwise |
| `NftCard.DownloadFileName` | components/nft-card.tsx:123 | the file name is the card type followed by `-card.png` |
| `NftCard.DownloadFileNameInjective` | components/nft-card.tsx:123 | different card types download under different names |
| `Strings.TrimStart` | components/mint-nft-button.tsx:57 | a suffix without leading white space, everything dropped being white space |
| `Strings.TrimEnd` | components/mint-nft-button.tsx:57 | a prefix without trailing white space, everything dropped being white space |
| `Strings.Trim` | components/mint-nft-button.tsx:57 | the trimmed title is empty exactly when the title is all white space, otherwise neither starts nor ends with white space, and it is a slice of the title whose cut-off prefix and suffix are white space |
| `Strings.BlankEnds` | components/mint-nft-button.tsx:57 | cutting a blank prefix and then a blank suffix cuts a blank prefix and a blank suffix off the original string |
| `Strings.TrimmedEmptyIsBlank` | components/mint-nft-button.tsx:57 | trimming both ends gives "" exactly when the string is blank |
| `Strings.NatToDecimal` | components/MintNFT.tsx:204 | the printed numeral is non-empty, all digits, without leading zero, and denotes the number |
| `Strings.DigitPrefixLength` | components/MintNFT.tsx:219 | the longest run of leading digits |
| `Strings.IntToDecimal` | components/MintNFT.tsx:204 | the printed integer: a minus sign before negatives, then the numeral; `Strings.ParseIntOfDecimal` reads it back |
| `Strings.DigitPrefixOfDigits` | components/MintNFT.tsx:219 | the leading run of digits of a digit string is all of it |
| `Strings.ParseDigits` | components/MintNFT.tsx:219 | NaN exactly when the text does not start with a digit; a whole digit string reads as its decimal value |
| `Strings.ParseInt` | components/MintNFT.tsx:219 | `parseInt` of "" is NaN and of a digit string is its decimal value |
| `Strings.ParseSigned` | components/MintNFT.tsx:219 | after the white space: "" is NaN and a digit string is its decimal value |
| `Strings.TrimStartKeeps` | components/MintNFT.tsx:219 | a string not starting with white space is left alone by the white-space skip |
| `Strings.ParseSignedNegative` | components/MintNFT.tsx:219 | a minus sign then digits reads as the negated value of the digits |
| `Strings.ParseIntNegative` | components/MintNFT.tsx:219 | the same for `parseInt` |
| `Strings.ParseIntOfDecimal` | components/MintNFT.tsx:204 | `parseInt` reads back every integer as printed |
| `Strings.Join` | components/MintNFT.tsx:204 | `join`; how it grows is stated by `Strings.JoinAppend` |
| `Strings.JoinAppend` | components/MintNFT.tsx:204 | joining one more part appends the separator and the part |
| `MintNft.FinalImage` | components/MintNFT.tsx:115 | the mint image is `imageUrl` when non-empty, otherwise `canvasImageUrl`; it is truthy exactly when one of them is |
| `MintNft.ValidationError` | components/MintNFT.tsx:117-142 | the checks run in order and the first failure names the toast (missing image, then missing card metadata, then no wallet); no toast exactly when all three pass |
| `MintNft.ButtonDisabled` | components/MintNFT.tsx:251 | the button's `disabled`: busy, no image, a card mint without metadata, an empty amount, or no wallet; `MintNft.EnabledButtonPassesValidation` relates it to the checks |
| `MintNft.AcceptsAmount` | components/MintNFT.tsx:241 | the values the amount input keeps: empty or all ASCII digits |
| `MintNft.EnabledButtonPassesValidation` | components/MintNFT.tsx:251 | an enabled button passes every input check of `handleMint`, and its amount gives its decimal value or 1 |
| `MintNft.ParseAmount` | components/MintNFT.tsx:219 | for "" or a digit string the quantity is at least 1: 1 for "" and for zero, the decimal value otherwise |
| `MintNft.ParseAmountOfDecimal` | components/MintNFT.tsx:219 | a positive quantity typed in decimal is minted unchanged |
| `MintNft.ParseAmountNeedsFilter` | components/MintNFT.tsx:219 | the rule alone passes "-3" on as -3, which the input filter refuses |
| `MintNft.MoveLabel` | components/MintNFT.tsx:204 | one move's label, `name (damage damage)` |
| `MintNft.MovesString` | components/MintNFT.tsx:204 | the Moves attribute; stated by `MintNft.MovesStringAppend`, `MintNft.JoinThree` and `MintNft.CardMovesString` |
| `MintNft.Labels` | components/MintNFT.tsx:204 | one `name (damage damage)` label per move, in order |
| `MintNft.MovesStringAppend` | components/MintNFT.tsx:204 | one more move adds ", " and its label to the Moves string |
| `MintNft.JoinThree` | components/MintNFT.tsx:204 | three labels join as first, ", ", second, ", ", third |
| `MintNft.CardMovesString` | components/MintNFT.tsx:204 | the Moves attribute of a page card lists Creative Strike, Prompt Blast, Artistic Wave with their damages, joined by ", " |
| `MintNft.DrawingDocument` | components/MintNFT.tsx:174-186 | name "My Drawing", description "A drawing I created", the uploaded image's locator, the one attribute Type=Drawing, no properties |
| `MintNft.CardDocument` | components/MintNFT.tsx:187-212 | the card's name and description, the image locator, and attributes Type, HP, Moves in that order repeating the properties block |
| `MintNft.NftDocument` | components/MintNFT.tsx:172-213 | drawing mode builds the bare drawing's document and card mode the card's; only the card's has a properties block; either embeds the uploaded image's locator |
| `MintNft.FailureToast` | components/MintNFT.tsx:230-234 | the toast of a thrown error: titled "Error", always destructive, with the error's message when it is non-empty and "Failed to mint NFT. Please try again." otherwise |
| `MintNft.FailureToastText` | components/MintNFT.tsx:230-234 | an error toast is destructive, titled "Error", never has an empty description, and shows a non-empty error message unchanged |
| `MintNft.SuccessToast` | components/MintNFT.tsx:223-226 | the toast of a truthy mint result: titled "Success", not destructive, naming "drawing" in drawing mode and "card" in card mode |
| `MintNft.SuccessToastNamesMintType` | components/MintNFT.tsx:223-226 | the success toast is never destructive, and the two mint types give different toasts |
| `MintNft.SubmitCalls` | components/MintNFT.tsx:162-235 | the calls of every outcome of the stages, in order; the lemmas below state which calls happen and how an attempt ends |
| `MintNft.Submit` | components/MintNFT.tsx:162-235 | the `try` block run stage by stage makes exactly the calls of `SubmitCalls` |
| `MintNft.SubmitShape` | components/MintNFT.tsx:162-235 | the fetch comes first; a rejected fetch, image upload or metadata upload ends the attempt after 2, 3 or 4 calls with a toast; once all three resolved the metadata upload of the document built on the image locator is third and the mint of the parsed quantity at the document's locator fourth, followed by at most a toast |
| `MintNft.SubmitMintsAfterUploads` | components/MintNFT.tsx:162-220 | a mint happens exactly when fetch and both uploads resolved; it follows the upload of the document built on the image locator and uses the document's locator and the parsed quantity |
| `MintNft.AnyRejected` | components/MintNFT.tsx:162-235 | some stage of the attempt rejected |
| `MintNft.SubmitLast` | components/MintNFT.tsx:222-235 | the last call is the error toast of the first rejected stage, else the success toast when the mint resolved truthy, else the mint itself |
| `MintNft.SubmitFailureEnding` | components/MintNFT.tsx:228-234 | the attempt ends in an error toast exactly when a stage rejected |
| `MintNft.SubmitSuccessEnding` | components/MintNFT.tsx:222-228 | it ends in the success toast exactly when every stage resolved and the mint's result is truthy |
| `MintNft.SubmitSilentEnding` | components/MintNFT.tsx:222 | it ends with the mint, and no toast, exactly when every stage resolved and the mint's result is falsy |
| `MintNft.MockScoresAreEpic` | components/MintNFT.tsx:103-109 | the preview's mock scores show as Epic with "Creative Genius" |
| `MintNft.PreviewSource` | components/MintNFT.tsx:86-97 | the preview takes `imageUrl` when it is a non-empty data URL; otherwise a non-empty canvas capture; otherwise it stays as it was; a changed preview is always non-empty |
| `MintNft.PreviewName` | components/MintNFT.tsx:264 | the metadata name, or "Your Creation"; stated with the display by `MintNft.PreviewNameAndColor` |
| `MintNft.PreviewType` | components/MintNFT.tsx:265 | the metadata type, or "Digital Art"; its colours are stated by `MintNft.PreviewNameAndColor` |
| `MintNft.PreviewNameAndColor` | components/MintNFT.tsx:261-268 | the previewed card shows the metadata name or "Your Creation" (the prompt state is always empty) and, without metadata, the Digital colours |
| `MintNft.MintPanel.constructor` | components/MintNFT.tsx:38-53 | amount "1", drawing mode, no preview, capture or scores, empty prompt |
| `MintNft.MintPanel.HandleAmountChange` | components/MintNFT.tsx:238-244 | the value is kept only when empty or all ASCII digits, so the amount stays empty-or-digits for ever |
| `MintNft.MintPanel.SetMintType` | components/MintNFT.tsx:282 | the chosen mint type is stored |
| `MintNft.MintPanel.CaptureCanvas` | components/MintNFT.tsx:59-75 | the canvas capture is stored only when no `imageUrl` is given and the capture succeeded |
| `MintNft.MintPanel.RefreshPreview` | components/MintNFT.tsx:86-110 | the preview follows `PreviewSource`; the scores shown are the given ones or the mock ones |
| `MintNft.MintPanel.Checks` | components/MintNFT.tsx:115-142 | the input checks of the panel's current state, through `MintNft.ValidationError` |
| `MintNft.MintPanel.HandleMint` | components/MintNFT.tsx:113-236 | a failed check only toasts; off the target network it asks for a switch and returns on success and failure without uploading or minting; otherwise it runs the stages; every mint is for at least one token |
| `MintNftButton.GuardPasses` | components/mint-nft-button.tsx:57 | the guard: a title that is not blank, scores, a non-empty prompt and an account |
| `MintNftButton.ConfirmDisabled` | components/mint-nft-button.tsx:214 | the confirm button's `disabled`; related to the guard by `MintNftButton.ConfirmAndGuard` |
| `MintNftButton.TriggerDisabled` | components/mint-nft-button.tsx:156 | the dialog trigger's `disabled`, the `disabled` prop defaulting to `true` when left out; related to the confirm button by `MintNftButton.TriggerAndConfirm` |
| `MintNftButton.TriggerAndConfirm` | components/mint-nft-button.tsx:43-214 | with no account both buttons are disabled, and when the confirm button is enabled the trigger is enabled exactly when its `disabled` prop is given as `false` |
| `MintNftButton.ConfirmAndGuard` | components/mint-nft-button.tsx:214 | the confirm button is disabled exactly when busy, the title is blank or there is no address; a passing guard implies it is enabled when not busy, and an enabled button passes the guard once scores and prompt exist |
| `MintNftButton.BuildMetadata` | components/mint-nft-button.tsx:81-92 | name is the title, description is "Artwork created from prompt: " then the prompt, the image locator, five attributes Creativity, Prompt Adherence, Artistic Quality, Overall Score, Prompt carrying the scores and the prompt |
| `MintNftButton.LocalUpload` | components/mint-nft-button.tsx:144-148 | the local upload always rejects |
| `MintNftButton.Succeeds` | components/mint-nft-button.tsx:68-130 | when an attempt mints: a canvas, both uploads resolved, the transaction prepared and written, and a "success" receipt; `MintNftButton.Attempt` decides exactly this |
| `MintNftButton.LocalUploadNeverSucceeds` | components/mint-nft-button.tsx:78 | with the local upload no attempt can succeed |
| `MintNftButton.MintedToast` | components/mint-nft-button.tsx:117-120 | the toast after a successful receipt: titled "NFT Minted Successfully!", not destructive, quoting the artwork's title in its description |
| `MintNftButton.MintedToastNamesTitle` | components/mint-nft-button.tsx:117-120 | the success toast is never destructive, and two titles give the same toast only when they are equal, so the title can be read back |
| `MintNftButton.MintDialog.constructor` | components/mint-nft-button.tsx:44-47 | closed, empty title, not busy, not complete |
| `MintNftButton.MintDialog.SetTitle` | components/mint-nft-button.tsx:175 | the typed title is stored |
| `MintNftButton.MintDialog.HandleMint` | components/mint-nft-button.tsx:56-141 | the calls are exactly `MintCalls`; a failed guard leaves both flags alone; otherwise the busy flag ends cleared and `mintingComplete` is set exactly when the attempt `Succeeds` |
| `MintNftButton.MintDialog.HandleMintAsWritten` | components/mint-nft-button.tsx:56-148 | with the component's own upload every attempt past the guard ends in the error toast with the flag cleared, prepares no mint and leaves `mintingComplete` unchanged |
| `MintNftButton.MintCalls` | components/mint-nft-button.tsx:56-141 | the calls of `handleMint`: the error toast when the guard fails, otherwise the attempt's calls between the two writes of the busy flag |
| `MintNftButton.MintCallsTrace` | components/mint-nft-button.tsx:56-141 | the calls of `handleMint` have every property `MintTrace` lists |
| `MintNftButton.MintTrace` | components/mint-nft-button.tsx:56-141 | what holds of the calls of `handleMint`: a failed guard only toasts; otherwise the flag brackets the attempt, the last toast is the success toast exactly when `Succeeds`, a missing canvas toasts without uploading, and every prepared mint is at the document's locator |
| `MintNftButton.FlagBracketed` | components/mint-nft-button.tsx:66-140 | the busy flag is raised first, cleared last and written nowhere else |
| `MintNftButton.MintsAtDocument` | components/mint-nft-button.tsx:95-107 | every prepared mint is for one token of the contract, type "1155", at the locator the document upload just before it returned |
| `MintNftButton.PreparesAtDocument` | components/mint-nft-button.tsx:95-107 | the same for the calls of an attempt, where the first call cannot be a prepared mint |
| `MintNftButton.MintSteps` | components/mint-nft-button.tsx:56-141 | the calls are exactly `MintCalls`, the attempt starts exactly when the guard passes, and it succeeds exactly when `Succeeds` |
| `MintNftButton.BracketedAttempt` | components/mint-nft-button.tsx:66-140 | wrapping the attempt in the two flag writes gives a bracketed trace, keeps the attempt's last toast second to last, and keeps every prepared mint right after its upload |
| `MintNftButton.AttemptCalls` | components/mint-nft-button.tsx:68-137 | the calls of every outcome of the `try` block and its `catch`, in order |
| `MintNftButton.AttemptShape` | components/mint-nft-button.tsx:70-95 | a missing canvas only toasts failure; otherwise the canvas is uploaded first, and once that resolved the second call uploads `BuildMetadata` of the title, prompt, scores and the image's locator |
| `MintNftButton.SucceededAttempt` | components/mint-nft-button.tsx:75-120 | a successful attempt makes exactly six calls: the image upload, the document upload, the one-token "1155" mint of the contract at the document's locator for the account, the write of the prepared parameters, the wait for that transaction's receipt, and the success toast |
| `MintNftButton.AttemptLast` | components/mint-nft-button.tsx:115-137 | an attempt ends with the success toast exactly when it `Succeeds`, and with the failure toast otherwise |
| `MintNftButton.AttemptWritesNoFlag` | components/mint-nft-button.tsx:68-137 | the attempt itself never writes the busy flag |
| `MintNftButton.AttemptMints` | components/mint-nft-button.tsx:95-107 | every mint an attempt prepares follows the document upload and is for one "1155" token of the contract at the locator that upload returned |
| `MintNftButton.AttemptMintsFor` | components/mint-nft-button.tsx:106 | every mint an attempt prepares is for the connected account |
| `MintNftButton.Attempt` | components/mint-nft-button.tsx:68-137 | the `try`/`catch` run stage by stage makes exactly the calls of `AttemptCalls`, and `succeeded` is exactly `Succeeds` |
| `NftMetadata.TraitTypes` | components/MintNFT.tsx:180-206 | the trait names of the attributes, in order |

## Left out

- Browser I/O: `document.querySelector`, `toDataURL`, `fetch(...).blob()`, the `html2canvas` rasterisation and the download anchor (components/nft-card.tsx:103-133). Their results are inputs; only the download's file name is modelled.
- External services: the IPFS helpers of `@/lib/ipfs`, the wagmi hooks, `switchChain`, the protocol client, `writeContract`, `waitForTransactionReceipt` and the `useZoraNFT` hook. Each becomes a resolved-or-rejected input. The chain identifier `ZORA_CHAIN_ID` and the contract address are parameters, because their configuration files are not part of this model.
- React machinery: `useEffect` scheduling and the `mounted` flag, toast rendering, JSX layout and CSS. The two effects of the mint panel are methods the caller runs.
- Randomness and timers: `Math.random()` in the card name is the `drawingNumber` parameter. The 3-second reset after a successful button mint (components/mint-nft-button.tsx:122-127) is not modelled.
- Floating point: scores are reals, `Math.floor(x*100)` and `Math.floor(x*50)` are exact floors of real products, and `toFixed(1)` display is not modelled. `Strings.NatToDecimal` writes every integer in plain digits, while JavaScript switches to exponent form from 10^21; the drawing numbers and damage values printed here stay far below that.
- `Strings.ParseInt`: does not model the `0x` hexadecimal prefix, or the loss of precision and `Infinity` for very long digit strings. The amount filter makes the first unreachable.
- `Strings.IsWhitespace`: covers the ASCII white space, U+00A0, U+2028, U+2029 and U+FEFF, not the other Unicode space separators that `trim` also removes.
- `NftCard.GetTypeColor`: prototype keys such as "constructor", which `typeColors[type]` would also find, are not modelled.
- JSON.stringify of the button's metadata document: the model uploads the document value itself.
- The `nftCard` part of the button's scores prop and the `isOpen` dialog toggling: neither affects any modelled behaviour.
- `components/leaderboard.tsx`: mock data and a simulated delay, with no logic to model.
- Console output: the `console.log` and `console.error` calls of the mint panel's effects and handler and of the button's handler (components/MintNFT.tsx:66-96, 169, 217, 229; components/mint-nft-button.tsx:132) have no effect on any modelled state.
- Async interleaving: the awaited stages run in order, with no concurrency and no cancellation.
