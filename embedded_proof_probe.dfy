/** The embedded-proof check of a verifiable credential: select the
    Ed25519Signature2020 proof, resolve its verification method to a
    multibase key and an optional controller, check the ed25519-pub tag,
    match the controller against the issuer, and map the signature
    verifier's answer to an outcome. The pipeline is fail-fast: the first
    stage that rejects decides the outcome. */
module EmbeddedProofProbe {
  import opened Wrappers
  import opened JavaStrings
  import opened JsonP
  import opened Uris
  import opened Multikey

  const SignatureType := "Ed25519Signature2020"
  const AssertionMethod := "assertionMethod"

  // ---------------------------------------------------------------- data

  /** An embedded proof, as read from the parsed credential. */
  datatype Proof = Proof(
    types: seq<string>,
    purpose: string,
    verificationMethod: Uri,
    proofValue: string)

  /** `LdProof.getType()`: the first declared type, null when there is none. */
  function DeclaredType(p: Proof): Option<string> {
    if p.types == [] then None else Some(p.types[0])
  }

  /** `LdProof.isType`: the proof declares `t` among its types. */
  predicate IsType(p: Proof, t: string) {
    t in p.types
  }

  /** The credential after parsing: its issuer, its proof list (`None` when
      the parser found no list) and the document the signature covers. */
  datatype Credential = Credential(
    issuer: string,
    proofs: Option<seq<Proof>>,
    document: Json)

  /** What the document loader does with a key-document URL: raise with a
      message, or return a document whose JSON content may be absent. */
  datatype LoadResult = LoadThrew(message: string) | Loaded(content: Option<Json>)

  /** What `Ed25519Signature2020LdVerifier.verify` does: answer, or raise. */
  datatype VerifyResult = Returned(verified: bool) | Threw(message: string)

  /** The collaborators the probe calls out to. */
  datatype Env = Env(
    load: Uri -> LoadResult,
    multibaseDecode: MultibaseDecoder,
    verify: (seq<byte>, Credential, Proof) -> VerifyResult)

  /** The cause of an exception caught while fetching a key document. */
  datatype KeyUrlFailure = LoaderThrew(message: string) | JsonFailed(failure: JsonFailure)

  /** The cause of an exception caught while decoding the public key. */
  datatype KeyFailure = MultibaseFailed(message: string) | IndexOutOfBounds(index: nat, length: nat)

  /** Why the probe rejected: one constructor per `error(...)` call, holding
      the values its message is built from. */
  datatype Reason =
    | MissingProof                                 // "... missing a proof."
    | NoMatchingProof                              // "No proof with type ... found"
    | UnknownProofType(declared: Option<string>)   // "Unknown proof type: " + getType()
    | InvalidProofPurpose(purpose: string)         // "Invalid proof purpose: "
    | MissingScheme                                // "... (missing scheme)"
    | UnknownVerificationMethod(uri: string)    // "Unknown verification method: "
    | KeyDocumentNotFound(uri: string)          // "Key document not found at "
    | CannotParseKeyDocument(uri: string)       // "Cannot parse key document from "
    | InvalidVerificationKeyUrl(cause: KeyUrlFailure) // "Invalid verification key URL: "
    | UnknownScheme(scheme: string)                // "Unknown verification method scheme: "
    | NotEd25519Key                                // "... does not contain an Ed25519 public key"
    | InvalidPublicKey(keyCause: KeyFailure)       // "Invalid public key: "
    | ControllerMismatch(issuer: string)           // "Key controller does not match issuer: "
    | VerificationFailed                           // "Embedded proof verification failed."

  /** The report of one run: `success`, `error` or `fatal`. */
  datatype Outcome = Success | Error(reason: Reason) | Fatal(message: string)

  /** What a verification method resolves to. */
  datatype KeyMaterial = KeyMaterial(publicKeyMultibase: string, controller: Option<string>)

  /** The shape of a verification-method URI, decided without any fetch. */
  datatype MethodShape =
    | FragmentKey(publicKeyMultibase: string, controller: string) // controller#key
    | DidKey(publicKeyMultibase: string)                          // did:key:key
    | RemoteDocument                                              // http(s) key or controller document

  /** The arguments the verifier is called with. */
  datatype VerifierCall = VerifierCall(publicKey: seq<byte>, proof: Proof)

  // ------------------------------------------------- stage 1: the proof

  /** The proof filter's condition. */
  predicate IsCandidate(p: Proof) {
    IsType(p, SignatureType) && p.purpose == AssertionMethod
  }

  /** `stream().filter(IsCandidate).findFirst()`: the index of the first
      candidate in list order. */
  function FirstCandidate(ps: seq<Proof>): (r: Option<nat>)
    ensures r.None? <==> forall j :: 0 <= j < |ps| ==> !IsCandidate(ps[j])
    ensures r.Some? ==> r.value < |ps| && IsCandidate(ps[r.value])
    ensures r.Some? ==> forall j :: 0 <= j < r.value ==> !IsCandidate(ps[j])
  {
    if ps == [] then None
    else if IsCandidate(ps[0]) then Some(0)
    else
      match FirstCandidate(ps[1..])
      case None => None
      case Some(k) => Some(k + 1)
  }

  /** Selects the proof to check, with the type and purpose re-checks the
      source performs after the filter. */
  function SelectProof(proofs: Option<seq<Proof>>): (r: Result<Proof, Reason>)
    ensures r == Err(MissingProof) <==> proofs.None? || proofs.value == []
    ensures r == Err(NoMatchingProof)
        <==> proofs.Some? && proofs.value != []
             && forall j :: 0 <= j < |proofs.value| ==> !IsCandidate(proofs.value[j])
    ensures r.Ok? ==>
              proofs.Some? && IsCandidate(r.value)
              && exists i :: 0 <= i < |proofs.value| && proofs.value[i] == r.value
                   && forall j :: 0 <= j < i ==> !IsCandidate(proofs.value[j])
    // the re-checks after the filter never reject
    ensures r.Err? ==> r.error == MissingProof || r.error == NoMatchingProof
  {
    if proofs.None? || |proofs.value| == 0 then Err(MissingProof)
    else
      match FirstCandidate(proofs.value)
      case None => Err(NoMatchingProof)
      case Some(i) =>
        var proof := proofs.value[i];
        if !IsType(proof, SignatureType) then Err(UnknownProofType(DeclaredType(proof)))
        else if proof.purpose != AssertionMethod then Err(InvalidProofPurpose(proof.purpose))
        else Ok(proof)
  }

  // ------------------------------------- stage 2: the verification method

  /** The fragment is itself a valid Ed25519 multibase key. */
  predicate HasKeyFragment(decode: MultibaseDecoder, m: Uri) {
    m.fragment.Some? && IsValidPublicKeyMultibase(decode, m.fragment.value)
  }

  predicate IsHttpScheme(m: Uri) {
    m.scheme == Some("http") || m.scheme == Some("https")
  }

  /** Classifies a verification-method URI, in the source's order of tests. */
  function Classify(decode: MultibaseDecoder, m: Uri): (r: Result<MethodShape, Reason>)
    ensures (r.Ok? && r.value.FragmentKey?) <==> HasKeyFragment(decode, m)
    ensures r.Ok? && r.value.FragmentKey? ==>
              r.value.publicKeyMultibase == m.fragment.value
              && r.value.controller + "#" <= m.text && '#' !in r.value.controller
    ensures r == Err(MissingScheme) <==> !HasKeyFragment(decode, m) && IsBlank(m.scheme)
    ensures (r.Ok? && r.value.DidKey?)
        <==> !HasKeyFragment(decode, m) && m.scheme == Some("did")
             && StartsWith(m.schemeSpecificPart, "key:")
    ensures r.Ok? && r.value.DidKey? ==> "key:" + r.value.publicKeyMultibase == m.schemeSpecificPart
    ensures r == Err(UnknownVerificationMethod(m.text))
        <==> !HasKeyFragment(decode, m) && m.scheme == Some("did")
             && !StartsWith(m.schemeSpecificPart, "key:")
    ensures r == Ok(RemoteDocument) <==> !HasKeyFragment(decode, m) && IsHttpScheme(m)
    ensures r.Err? && r.error.UnknownScheme? <==>
              !HasKeyFragment(decode, m) && !IsBlank(m.scheme)
              && m.scheme.value !in {"did", "http", "https"}
    ensures r.Err? && r.error.UnknownScheme? ==> m.scheme == Some(r.error.scheme)
  {
    if HasKeyFragment(decode, m) then
      Ok(FragmentKey(m.fragment.value, BeforeFragment(m)))
    else if IsBlank(m.scheme) then
      assert m.scheme != Some("did") && !IsHttpScheme(m) by {
        if m.scheme.Some? && |m.scheme.value| > 0 { assert IsWhitespace(m.scheme.value[0]); }
      }
      Err(MissingScheme)
    else if m.scheme.value == "did" then
      if StartsWith(m.schemeSpecificPart, "key:") then
        assert "key:" + m.schemeSpecificPart[4..] == m.schemeSpecificPart;
        Ok(DidKey(m.schemeSpecificPart[4..]))
      else
        Err(UnknownVerificationMethod(m.text))
    else if m.scheme.value == "http" || m.scheme.value == "https" then
      Ok(RemoteDocument)
    else
      Err(UnknownScheme(m.scheme.value))
  }

  /** Reads a fetched document: a key document when its top-level
      `controller` is not blank, else a controller document whose
      `verificationMethod` object holds the key. `Ok(None)` is the empty
      `verificationMethod` object. */
  function ReadKeyDocument(content: Json): (r: Result<Option<KeyMaterial>, JsonFailure>)
    ensures r.Ok? ==> content.JObject? && "controller" in content.members
                      && content.members["controller"].JString?
    ensures r.Ok? && r.value.Some? ==> r.value.value.controller.Some?
    // a key document: both strings are read from the top level
    ensures r.Ok? && !IsBlank(Some(content.members["controller"].text)) ==>
              r.value.Some?
              && r.value.value.controller == Some(content.members["controller"].text)
              && "publicKeyMultibase" in content.members
              && content.members["publicKeyMultibase"] == JString(r.value.value.publicKeyMultibase)
    // a controller document: both strings are read from `verificationMethod`
    ensures r.Ok? && IsBlank(Some(content.members["controller"].text)) ==>
              "verificationMethod" in content.members
              && content.members["verificationMethod"].JObject?
              && var vm := content.members["verificationMethod"].members;
                 (r.value.None? <==> vm == map[])
                 && (r.value.Some? ==>
                       "controller" in vm && "publicKeyMultibase" in vm
                       && vm["controller"] == JString(r.value.value.controller.value)
                       && vm["publicKeyMultibase"] == JString(r.value.value.publicKeyMultibase))
    // conversely, what each shape of document gives
    ensures !content.JObject? ==> r == Err(NotAnObject)
    ensures content.JObject? && !HasString(content.members, "controller") ==>
              r == Err(StringFailure(content.members, "controller"))
    // a key document
    ensures content.JObject? && HasString(content.members, "controller")
            && !IsBlank(Some(content.members["controller"].text)) ==>
              var doc := content.members;
              r == if HasString(doc, "publicKeyMultibase")
                   then Ok(Some(KeyMaterial(doc["publicKeyMultibase"].text, Some(doc["controller"].text))))
                   else Err(StringFailure(doc, "publicKeyMultibase"))
    // a controller document
    ensures content.JObject? && HasString(content.members, "controller")
            && IsBlank(Some(content.members["controller"].text)) ==>
              var doc := content.members;
              if "verificationMethod" !in doc then r == Err(NullObject("verificationMethod"))
              else if !doc["verificationMethod"].JObject? then r == Err(NotAnObjectMember("verificationMethod"))
              else
                var vm := doc["verificationMethod"].members;
                r == if vm == map[] then Ok(None)
                     else if !HasString(vm, "controller") then Err(StringFailure(vm, "controller"))
                     else if !HasString(vm, "publicKeyMultibase") then Err(StringFailure(vm, "publicKeyMultibase"))
                     else Ok(Some(KeyMaterial(vm["publicKeyMultibase"].text, Some(vm["controller"].text))))
  {
    var doc :- AsJsonObject(content);
    var controller :- GetString(doc, "controller");
    if IsBlank(Some(controller)) then
      var verificationMethod :- GetJsonObject(doc, "verificationMethod");
      if verificationMethod.None? then Err(NullObject("verificationMethod"))
      else if |verificationMethod.value| == 0 then Ok(None)
      else
        var vmController :- GetString(verificationMethod.value, "controller");
        var publicKeyMultibase :- GetString(verificationMethod.value, "publicKeyMultibase");
        Ok(Some(KeyMaterial(publicKeyMultibase, Some(vmController))))
    else
      var publicKeyMultibase :- GetString(doc, "publicKeyMultibase");
      Ok(Some(KeyMaterial(publicKeyMultibase, Some(controller))))
  }

  /** The http/https branch: fetch, then read. Every exception inside it,
      the loader's and JSON-P's alike, becomes a rejection. */
  function ResolveRemote(load: Uri -> LoadResult, m: Uri): (r: Result<KeyMaterial, Reason>)
    ensures load(m).LoadThrew? ==> r == Err(InvalidVerificationKeyUrl(LoaderThrew(load(m).message)))
    ensures load(m) == Loaded(None) ==> r == Err(KeyDocumentNotFound(m.text))
    ensures load(m).Loaded? && load(m).content.Some? ==>
              match ReadKeyDocument(load(m).content.value)
              case Err(f) => r == Err(InvalidVerificationKeyUrl(JsonFailed(f)))
              case Ok(None) => r == Err(CannotParseKeyDocument(m.text))
              case Ok(Some(km)) => r == Ok(km)
  {
    match load(m)
    case LoadThrew(message) => Err(InvalidVerificationKeyUrl(LoaderThrew(message)))
    case Loaded(None) => Err(KeyDocumentNotFound(m.text))
    case Loaded(Some(content)) =>
      match ReadKeyDocument(content)
      case Err(failure) => Err(InvalidVerificationKeyUrl(JsonFailed(failure)))
      case Ok(None) => Err(CannotParseKeyDocument(m.text))
      case Ok(Some(km)) => Ok(km)
  }

  /** Resolves a verification method to key material. */
  function Resolve(env: Env, m: Uri): (r: Result<KeyMaterial, Reason>)
    ensures HasKeyFragment(env.multibaseDecode, m) ==>
              r == Ok(KeyMaterial(m.fragment.value, Some(BeforeFragment(m))))
    ensures !HasKeyFragment(env.multibaseDecode, m) && m.scheme == Some("did")
            && StartsWith(m.schemeSpecificPart, "key:") ==>
              r.Ok? && r.value.controller.None?
              && "key:" + r.value.publicKeyMultibase == m.schemeSpecificPart
    ensures !HasKeyFragment(env.multibaseDecode, m) && IsHttpScheme(m) ==>
              r == ResolveRemote(env.load, m)
    ensures r.Ok? && r.value.controller.None? ==>
              !HasKeyFragment(env.multibaseDecode, m) && m.scheme == Some("did")
    // a blank scheme, another did method and another scheme are rejected as classified
    ensures Classify(env.multibaseDecode, m).Err? ==> r == Err(Classify(env.multibaseDecode, m).error)
  {
    var shape :- Classify(env.multibaseDecode, m);
    match shape
    case FragmentKey(key, controller) => Ok(KeyMaterial(key, Some(controller)))
    case DidKey(key) => Ok(KeyMaterial(key, None))
    case RemoteDocument => ResolveRemote(env.load, m)
  }

  // ---------------------------------------------- stage 3: the key bytes

  /** Decodes the multibase key and checks the ed25519-pub tag, reading
      bytes 0 and 1 as the source does: a short array raises an index
      exception, caught as an invalid key, unless byte 0 already differs
      from 0xed. The key length is not checked here. */
  function CheckMulticodec(decode: MultibaseDecoder, s: string): (r: Result<seq<byte>, Reason>)
    ensures r.Ok? <==> decode(s).Ok? && HasEd25519Tag(decode(s).value)
    ensures r.Ok? ==> r.value == decode(s).value
    ensures decode(s).Err? ==> r == Err(InvalidPublicKey(MultibaseFailed(decode(s).error)))
    ensures decode(s).Ok? && r.Err? ==>
              var b := decode(s).value;
              (r == Err(NotEd25519Key) <==> (|b| >= 1 && b[0] != 0xED) || (|b| >= 2 && b[1] != 0x01))
              && (r.error != NotEd25519Key ==> r.error == InvalidPublicKey(IndexOutOfBounds(|b|, |b|)))
  {
    match decode(s)
    case Err(message) => Err(InvalidPublicKey(MultibaseFailed(message)))
    case Ok(b) =>
      if |b| == 0 then Err(InvalidPublicKey(IndexOutOfBounds(0, 0)))
      else if b[0] != 0xED then Err(NotEd25519Key)
      else if |b| == 1 then Err(InvalidPublicKey(IndexOutOfBounds(1, 1)))
      else if b[1] != 0x01 then Err(NotEd25519Key)
      else Ok(b)
  }

  // ------------------------------------------- stage 4: the controller

  /** A resolved controller must be the issuer, character for character;
      an absent controller is not checked. */
  predicate ControllerAccepted(controller: Option<string>, issuer: string) {
    controller.None? || controller.value == issuer
  }

  // -------------------------------------------------- the whole pipeline

  /** Stages 1 to 4: everything the source does before it calls the verifier. */
  function Prepare(env: Env, c: Credential): (r: Result<VerifierCall, Reason>)
    ensures r.Ok? ==> SelectProof(c.proofs) == Ok(r.value.proof)
    ensures r.Ok? ==>
              var km := Resolve(env, r.value.proof.verificationMethod);
              km.Ok?
              && env.multibaseDecode(km.value.publicKeyMultibase) == Ok(MulticodecEncode(r.value.publicKey))
              && ControllerAccepted(km.value.controller, c.issuer)
    ensures r.Err? ==> r.error != VerificationFailed
    // fail-fast: the first failing stage's own rejection is the one returned
    ensures SelectProof(c.proofs).Err? ==> r == Err(SelectProof(c.proofs).error)
    ensures SelectProof(c.proofs).Ok? ==>
              var km := Resolve(env, SelectProof(c.proofs).value.verificationMethod);
              (km.Err? ==> r == Err(km.error))
              && (km.Ok? ==>
                    var mc := CheckMulticodec(env.multibaseDecode, km.value.publicKeyMultibase);
                    (mc.Err? ==> r == Err(mc.error))
                    && (mc.Ok? && !ControllerAccepted(km.value.controller, c.issuer) ==>
                          r == Err(ControllerMismatch(c.issuer))))
  {
    var proof :- SelectProof(c.proofs);
    var km :- Resolve(env, proof.verificationMethod);
    var multicodec :- CheckMulticodec(env.multibaseDecode, km.publicKeyMultibase);
    if km.controller.Some? && km.controller.value != c.issuer then
      Err(ControllerMismatch(c.issuer))
    else
      var publicKey := MulticodecDecode(multicodec).value;
      Ok(VerifierCall(publicKey, proof))
  }

  /** `EmbeddedProofProbe.run`. */
  function Run(env: Env, c: Credential): (r: Outcome)
    ensures Prepare(env, c).Err? ==> r == Error(Prepare(env, c).error)
    ensures r.Fatal? ==> Prepare(env, c).Ok?
  {
    match Prepare(env, c)
    case Err(reason) => Error(reason)
    case Ok(call) =>
      match env.verify(call.publicKey, c, call.proof)
      case Threw(message) => Fatal(message)
      case Returned(verified) => if verified then Success else Error(VerificationFailed)
  }
}
