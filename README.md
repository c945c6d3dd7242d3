# Embedded proof check of a verifiable credential

A Dafny model of `EmbeddedProofProbe`, the inspector step that checks the
Ed25519Signature2020 proof embedded in a verifiable credential. `run` is a
fail-fast pipeline of five stages:

1. select the first proof of type `Ed25519Signature2020` and purpose
   `assertionMethod`;
2. resolve the proof's verification method to a `publicKeyMultibase` and an
   optional controller. The method takes one of four shapes:
   `controller#key`, `did:key:key`, an http(s) key document, or an http(s)
   controller document with a `verificationMethod` object;
3. decode the key and check the ed25519-pub multicodec tag `0xed 0x01`
   (W3C CCG "Ed25519Signature2020", section "Ed25519VerificationKey2020");
4. require a resolved controller to equal the issuer;
5. call the Ed25519 verifier and map its answer: true is success, false is
   an error, an exception is fatal.

`JavaStrings.IsBlank`, `JavaStrings.StartsWith`, `EmbeddedProofProbe.IsType`
and `EmbeddedProofProbe.DeclaredType` stand in for library calls. They are
given by their definitions and carry no contract of their own:
`StringUtils.isBlank` (lines 90 and 108), `String.startsWith` (line 93),
`LdProof.isType` (lines 52 and 61) and `LdProof.getType` (line 62).

The model is pure, like the source: `run` has no state and no loop, so every
stage is a function and every property a lemma.

- `wrappers.dfy`: `Option` (also a Java null) and `Result` (a value or a
  raised failure).
- `java_strings.dfy`: `isBlank`, `startsWith` and `indexOf`.
- `json_p.dfy`: JSON values and the JSON-P accessors, with the exceptions
  they raise.
- `uris.dfy`: a pre-parsed `java.net.URI`. A URI has a fragment exactly when
  its text holds a `#`.
- `multikey.dfy`: the multicodec tag, `IsValidPublicKeyMultibase` and the
  round trip.
- `embedded_proof_probe.dfy`: the stages, `Prepare` (stages 1 to 4) and
  `Run`.
- `probe_properties.dfy`: lemmas about `Run`.

The collaborators are fields of `Env`, and the model only calls them:

- the document loader: it raises with a message, or returns a document
  whose JSON content may be absent;
- `Multibase.decode`: it returns bytes, or raises with a message;
- the Ed25519 verifier: it answers true or false, or raises with a message.

A rejection carries a `Reason`. It has one constructor per `error(...)`
call, and the constructor holds the values that call puts into its message.

Points where the code behaves differently from what its comments or the key
format suggest. The model follows the code:

- The Ed25519VerificationKey2020 format fixes the key at 32 bytes, and the
  comment at lines 70-72 says the verifier expects 32 bytes. But the main
  decode path (lines 132-149) does not check the length. Only the fragment
  test `IsValidPublicKeyMultibase` does.
  `ProbeProperties.DidKeyOfAnyLengthReachesVerifier` states this.
- The comment at lines 109-110 presents a controller document (such as a DID
  document) as the fallback when the document is not a key document. But
  `getString("controller")` at line 107 raises when the member is missing.
  So the `verificationMethod` branch is reached only when a top-level
  `controller` string is present and blank.
  `ProbeProperties.ControllerDocumentNeedsBlankController` states this.
- The prefix test at line 135 reads byte 0, then byte 1, with a
  short-circuit `||`. As a result:
  - 0 bytes raise an index exception, reported as an invalid public key;
  - 1 byte other than 0xed is reported as "not an Ed25519 key";
  - 1 byte equal to 0xed raises an index exception.
- `Multicodec.decode` at line 149 is outside any `try`. The model shows it
  cannot raise there: `Prepare` calls it only on bytes that passed the
  prefix check.

## Model

| member | source | states |
|---|---|---|
| `EmbeddedProofProbe.FirstCandidate` | inspector-vc/src/main/java/org/oneedtech/inspect/vc/probe/EmbeddedProofProbe.java:52-53 | Finds the first proof of the expected type and purpose. No proof before it matches. The result is absent exactly when no proof matches. |
| `EmbeddedProofProbe.SelectProof` | inspector-vc/src/main/java/org/oneedtech/inspect/vc/probe/EmbeddedProofProbe.java:46-66 | A null or empty proof list gives `MissingProof`. A non-empty list without a match gives `NoMatchingProof`. Otherwise the result is the first matching proof. The type and purpose re-checks never reject. |
| `EmbeddedProofProbe.Classify` | inspector-vc/src/main/java/org/oneedtech/inspect/vc/probe/EmbeddedProofProbe.java:86-127 | Each shape holds exactly under its condition, tested in source order. A valid key fragment gives the fragment as the key, with the text before the first `#` as the controller. Otherwise: a blank scheme gives `MissingScheme`; `did` with `key:` gives the rest as the key; any other `did` is an unknown method; http/https is a remote document; any other scheme is an unknown scheme. |
| `EmbeddedProofProbe.ReadKeyDocument` | inspector-vc/src/main/java/org/oneedtech/inspect/vc/probe/EmbeddedProofProbe.java:106-120 | Gives a result for every document shape. A non-object raises a class cast. A missing or non-string `controller` raises the `getString` failure. A non-blank `controller` gives the top-level `publicKeyMultibase` with that controller, or the `getString` failure for `publicKeyMultibase`. A blank `controller` reads `verificationMethod`: missing is a null dereference, a non-object is a class cast, an empty object gives no key material, and otherwise its `controller` and `publicKeyMultibase` strings are used, or their `getString` failure. |
| `EmbeddedProofProbe.ResolveRemote` | inspector-vc/src/main/java/org/oneedtech/inspect/vc/probe/EmbeddedProofProbe.java:99-124 | A loader exception and a JSON-P exception both become `InvalidVerificationKeyUrl` with their cause. Absent content gives `KeyDocumentNotFound`. An empty `verificationMethod` gives `CannotParseKeyDocument`. Otherwise the result is the document's key material. |
| `EmbeddedProofProbe.Resolve` | inspector-vc/src/main/java/org/oneedtech/inspect/vc/probe/EmbeddedProofProbe.java:81-128 | A key fragment yields the fragment and the controller before the `#`. `did:key` yields the part after `key:` and no controller. http/https is resolved remotely. A blank scheme, another `did` method and any other scheme give the rejection of the classification. The controller is absent only for `did`. |
| `EmbeddedProofProbe.CheckMulticodec` | inspector-vc/src/main/java/org/oneedtech/inspect/vc/probe/EmbeddedProofProbe.java:132-140 | Accepts exactly the decoded bytes that begin with 0xed 0x01, and returns them unchanged. A decoder failure is an invalid public key carrying the decoder's message. A byte that contradicts the tag gives `NotEd25519Key`. Every other failure is `InvalidPublicKey(IndexOutOfBounds(n, n))` on an array of length n < 2. |
| `EmbeddedProofProbe.Prepare` | inspector-vc/src/main/java/org/oneedtech/inspect/vc/probe/EmbeddedProofProbe.java:44-151 | When the verifier is reached, it gets the selected proof and a key whose tagged encoding is exactly what the resolved multibase decodes to. The controller is absent or equals the issuer. Otherwise the result is the first failing stage's own rejection: the selection's, the resolution's, the key check's, or `ControllerMismatch(issuer)`. |
| `EmbeddedProofProbe.Run` | inspector-vc/src/main/java/org/oneedtech/inspect/vc/probe/EmbeddedProofProbe.java:42-163 | A rejection before the verifier is reported as an error with that reason. A fatal outcome needs all earlier stages to pass. |
| `Multikey.MulticodecDecode` | inspector-vc/src/main/java/org/oneedtech/inspect/vc/probe/EmbeddedProofProbe.java:149 | Strips the tag exactly when the bytes start with 0xed 0x01. Putting the tag back gives the input. |
| `Multikey.MulticodecRoundTrip` | inspector-vc/src/main/java/org/oneedtech/inspect/vc/probe/EmbeddedProofProbe.java:148-149 | Decoding the multicodec encoding of any key gives that key back. |
| `Multikey.IsValidPublicKeyMultibase` | inspector-vc/src/main/java/org/oneedtech/inspect/vc/probe/EmbeddedProofProbe.java:165-174 | True exactly when the multibase decodes to the tag followed by 32 bytes. Every decoder failure gives false, never an exception. |
| `Multikey.ValidMeansEncodedKey` | inspector-vc/src/main/java/org/oneedtech/inspect/vc/probe/EmbeddedProofProbe.java:165-174 | A string is valid exactly when it decodes to the multicodec encoding of some 32-byte key. |
| `Multikey.EncodedKeyIsValid` | inspector-vc/src/main/java/org/oneedtech/inspect/vc/probe/EmbeddedProofProbe.java:165-169 | Round trip: an encoded 32-byte key is valid and decodes back to itself. |
| `JavaStrings.IndexOf` | inspector-vc/src/main/java/org/oneedtech/inspect/vc/probe/EmbeddedProofProbe.java:88 | Returns the position of the first occurrence. The result is absent exactly when the character does not occur. |
| `Uris.BeforeFragment` | inspector-vc/src/main/java/org/oneedtech/inspect/vc/probe/EmbeddedProofProbe.java:88 | The controller followed by `#` is a prefix of the URI text. The controller holds no `#`. |
| `JsonP.AsJsonObject` | inspector-vc/src/main/java/org/oneedtech/inspect/vc/probe/EmbeddedProofProbe.java:107 | Succeeds exactly on an object. Otherwise it raises a class cast. |
| `JsonP.GetString` | inspector-vc/src/main/java/org/oneedtech/inspect/vc/probe/EmbeddedProofProbe.java:116-119 | Succeeds exactly on a string member, and returns its text. A missing member raises a null dereference. A member of another type raises a class cast. |
| `JsonP.GetJsonObject` | inspector-vc/src/main/java/org/oneedtech/inspect/vc/probe/EmbeddedProofProbe.java:111-113 | Gives null exactly for a missing member and an object for an object member. Any other member raises. |
| `ProbeProperties.PrepareMeansFourStagesPass` | inspector-vc/src/main/java/org/oneedtech/inspect/vc/probe/EmbeddedProofProbe.java:46-151 | The verifier is called exactly when the first four checks pass. It gets the selected proof and the decoded key with its tag removed. |
| `ProbeProperties.SuccessIffAllChecksPass` | inspector-vc/src/main/java/org/oneedtech/inspect/vc/probe/EmbeddedProofProbe.java:151-162 | Success holds exactly when all five checks pass: proof, method, key tag, controller and signature. |
| `ProbeProperties.FatalOnlyFromVerifier` | inspector-vc/src/main/java/org/oneedtech/inspect/vc/probe/EmbeddedProofProbe.java:153-160 | Fatal(m) holds exactly when stages 1-4 pass and the verifier raises m. |
| `ProbeProperties.RejectionNamesFirstFailingStage` | inspector-vc/src/main/java/org/oneedtech/inspect/vc/probe/EmbeddedProofProbe.java:46-157 | Fail-fast: every stage before the stage of a rejection's reason passed, and that stage failed. |
| `ProbeProperties.RejectionIsFailingStagesOwn` | inspector-vc/src/main/java/org/oneedtech/inspect/vc/probe/EmbeddedProofProbe.java:46-157 | The error `run` reports is exactly the rejection of the first stage that fails. After stage 4 it is `VerificationFailed` when the verifier does not raise. |
| `ProbeProperties.ProofRechecksNeverReject` | inspector-vc/src/main/java/org/oneedtech/inspect/vc/probe/EmbeddedProofProbe.java:61-66 | The outcome is never `UnknownProofType` or `InvalidProofPurpose`. |
| `ProbeProperties.NonCandidatesInFrontShiftSelection` | inspector-vc/src/main/java/org/oneedtech/inspect/vc/probe/EmbeddedProofProbe.java:52-53 | Selection follows list order. Non-matching proofs placed in front only shift the selected index by their number. |
| `ProbeProperties.LaterProofsIgnored` | inspector-vc/src/main/java/org/oneedtech/inspect/vc/probe/EmbeddedProofProbe.java:52-53 | Once a list holds a matching proof, proofs appended after it never change the selection. |
| `ProbeProperties.MissingProofConsultsNothing` | inspector-vc/src/main/java/org/oneedtech/inspect/vc/probe/EmbeddedProofProbe.java:46-49 | A null or empty proof list gives `MissingProof`, whatever the loader, decoder and verifier do. |
| `ProbeProperties.NoCandidateConsultsNothing` | inspector-vc/src/main/java/org/oneedtech/inspect/vc/probe/EmbeddedProofProbe.java:52-57 | If no proof has the expected type and purpose, the result is `NoMatchingProof`, whatever the collaborators do. |
| `ProbeProperties.LoaderOnlyForRemoteDocuments` | inspector-vc/src/main/java/org/oneedtech/inspect/vc/probe/EmbeddedProofProbe.java:86-100 | Changing the loader does not change the outcome unless the method has no key fragment and an http/https scheme. |
| `ProbeProperties.FragmentKeyEndToEnd` | inspector-vc/src/main/java/org/oneedtech/inspect/vc/probe/EmbeddedProofProbe.java:86-162 | For any proof list whose selected proof has a valid key fragment: the result is Success when the issuer equals the text before `#` and the verifier says true. Any other issuer gives `ControllerMismatch`. |
| `ProbeProperties.DidKeyWithOtherCodecRejected` | inspector-vc/src/main/java/org/oneedtech/inspect/vc/probe/EmbeddedProofProbe.java:92-137 | A `did:key` whose decoded bytes carry another codec tag gives `NotEd25519Key`. |
| `ProbeProperties.DidKeyOfAnyLengthReachesVerifier` | inspector-vc/src/main/java/org/oneedtech/inspect/vc/probe/EmbeddedProofProbe.java:93-151 | A tagged `did:key` of any length reaches the verifier with the bytes after the tag, because there is no 32-byte check on this path. |
| `ProbeProperties.RemoteLoadFailuresAreRejections` | inspector-vc/src/main/java/org/oneedtech/inspect/vc/probe/EmbeddedProofProbe.java:99-124 | An absent key document gives `KeyDocumentNotFound`. A loader exception gives `InvalidVerificationKeyUrl` with its message. Neither is fatal. |
| `ProbeProperties.RemoteKeyDocumentResolves` | inspector-vc/src/main/java/org/oneedtech/inspect/vc/probe/EmbeddedProofProbe.java:106-120 | An http(s) key document with a non-blank `controller` and a string `publicKeyMultibase` resolves to those two strings. |
| `ProbeProperties.RemoteControllerDocumentResolves` | inspector-vc/src/main/java/org/oneedtech/inspect/vc/probe/EmbeddedProofProbe.java:108-117 | A document with a blank `controller` and an empty `verificationMethod` gives `CannotParseKeyDocument`. One whose `verificationMethod` has string `controller` and `publicKeyMultibase` resolves to them. |
| `ProbeProperties.VerificationMethodArrayRejected` | inspector-vc/src/main/java/org/oneedtech/inspect/vc/probe/EmbeddedProofProbe.java:111-124 | A `verificationMethod` that is an array, as in a DID document, gives `InvalidVerificationKeyUrl` with a class cast. |
| `ProbeProperties.ControllerDocumentNeedsBlankController` | inspector-vc/src/main/java/org/oneedtech/inspect/vc/probe/EmbeddedProofProbe.java:106-113 | A document without a string `controller` fails before `verificationMethod` is read. |
| `ProbeProperties.VerifierThrowAndFalseDiffer` | inspector-vc/src/main/java/org/oneedtech/inspect/vc/probe/EmbeddedProofProbe.java:153-160 | A verifier that raises gives Fatal with its message. One that answers false gives the `VerificationFailed` error. |

## Left out

- Parsing the credential JSON into a credential object (line 44). The model
  starts from an already parsed `Credential`: an issuer, an optional proof
  list and the signed document.
- Null fields that make `run` throw a NullPointerException out of the
  probe. The model takes these fields as present:
  - a null `proofPurpose`, which matters only on a proof that the filter at
    line 52 reaches before the first match and that has type
    `Ed25519Signature2020`, because the `&&` short-circuits and `findFirst`
    stops at the first match;
  - a null `verificationMethod` on the selected proof (line 84);
  - a null issuer, which is read at line 143 only when a controller was
    resolved and the tag check passed.
- `LdProof.getType()` is taken as the first declared type, or null when
  there is none. It appears only in the `UnknownProofType` rejection, which
  can never happen.
- The `java.net.URI` grammar and percent-decoding. URIs arrive already split
  into text, scheme, scheme-specific part and fragment.
- The network fetch and caching of the document loader, the multibase
  alphabets, and Ed25519 canonicalisation and signature math. These are the
  `Env` collaborators. `Multicodec.decode` is modelled as removing the
  two-byte tag.
- The report text. A rejection records its call site and the values its
  message is built from. The literal message text and the JVM's own
  exception messages (null dereference, class cast) are not rendered.
- `StringUtils.isBlank`: library code that is not part of this model. It is
  taken as `String.isBlank`, that is a null reference or only
  `Character.isWhitespace` characters.
- `JsonLDCompactionProve.java`: a wrapper over the JSON-LD compaction
  library, outside this core.
- The `Ed25519Signature2020LdVerifier` constructor (line 151) is taken as
  not raising. Only its `verify` call, inside the `try`, is a collaborator.
- The reporting framework (`RunContext`, `ReportItems`): the model returns
  the outcome itself.
