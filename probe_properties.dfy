/** What the embedded-proof check promises, stated over `Run`: which stage a
    rejection comes from, when the outcome is Success or Fatal, which
    collaborators each branch consults, and the behaviour on
    the four verification-method shapes. */
module ProbeProperties {
  import opened Wrappers
  import opened JavaStrings
  import opened JsonP
  import opened Uris
  import opened Multikey
  import opened EmbeddedProofProbe

  /** The stage a rejection belongs to: 1 proof selection, 2 verification
      method resolution, 3 key decoding, 4 controller match, 5 signature. */
  function Stage(reason: Reason): (k: nat)
    ensures 1 <= k <= 5
  {
    match reason
    case MissingProof | NoMatchingProof | UnknownProofType(_) | InvalidProofPurpose(_) => 1
    case MissingScheme | UnknownVerificationMethod(_) | KeyDocumentNotFound(_)
      | CannotParseKeyDocument(_) | InvalidVerificationKeyUrl(_) | UnknownScheme(_) => 2
    case NotEd25519Key | InvalidPublicKey(_) => 3
    case ControllerMismatch(_) => 4
    case VerificationFailed => 5
  }

  /** The first `k` checks all pass on `c`. */
  predicate Passes(env: Env, c: Credential, k: nat) {
    k == 0 ||
    (SelectProof(c.proofs).Ok? &&
     var p := SelectProof(c.proofs).value;
     (k == 1 ||
      (Resolve(env, p.verificationMethod).Ok? &&
       var km := Resolve(env, p.verificationMethod).value;
       (k == 2 ||
        (CheckMulticodec(env.multibaseDecode, km.publicKeyMultibase).Ok? &&
         var multicodec := CheckMulticodec(env.multibaseDecode, km.publicKeyMultibase).value;
         (k == 3 ||
          (ControllerAccepted(km.controller, c.issuer) &&
           (k == 4 ||
            env.verify(multicodec[2..], c, p) == Returned(true)))))))))
  }

  /** Stages 1 to 4 pass exactly when the verifier gets called, and it gets
      the selected proof and the resolved key without its tag. */
  lemma PrepareMeansFourStagesPass(env: Env, c: Credential)
    ensures Prepare(env, c).Ok? <==> Passes(env, c, 4)
    ensures Prepare(env, c).Ok? ==>
              var p := SelectProof(c.proofs).value;
              var km := Resolve(env, p.verificationMethod).value;
              Prepare(env, c) == Ok(VerifierCall(
                CheckMulticodec(env.multibaseDecode, km.publicKeyMultibase).value[2..], p))
  {

  }

  /** Success exactly when every check passes, the signature included. */
  lemma SuccessIffAllChecksPass(env: Env, c: Credential)
    ensures Run(env, c) == Success <==> Passes(env, c, 5)
  {

  }

  /** Fatal comes from the verifier raising, and from nothing else. */
  lemma FatalOnlyFromVerifier(env: Env, c: Credential, message: string)
    ensures Run(env, c) == Fatal(message)
        <==> Passes(env, c, 4)
             && env.verify(Prepare(env, c).value.publicKey, c, Prepare(env, c).value.proof) == Threw(message)
  {

  }

  /** Fail-fast: a rejection names the first stage that failed, every stage
      before it having passed. */
  lemma RejectionNamesFirstFailingStage(env: Env, c: Credential, reason: Reason)
    requires Run(env, c) == Error(reason)
    ensures Passes(env, c, Stage(reason) - 1)
    ensures !Passes(env, c, Stage(reason))
  {

  }

  /** The reason `Run` reports is the failing stage's own rejection, not
      just one from the same stage. */
  lemma RejectionIsFailingStagesOwn(env: Env, c: Credential)
    ensures !Passes(env, c, 1) ==> Run(env, c) == Error(SelectProof(c.proofs).error)
    ensures Passes(env, c, 1) && !Passes(env, c, 2) ==>
              Run(env, c) == Error(Resolve(env, SelectProof(c.proofs).value.verificationMethod).error)
    ensures Passes(env, c, 2) && !Passes(env, c, 3) ==>
              var km := Resolve(env, SelectProof(c.proofs).value.verificationMethod).value;
              Run(env, c) == Error(CheckMulticodec(env.multibaseDecode, km.publicKeyMultibase).error)
    ensures Passes(env, c, 3) && !Passes(env, c, 4) ==> Run(env, c) == Error(ControllerMismatch(c.issuer))
    ensures Passes(env, c, 4) && !Passes(env, c, 5) && !Run(env, c).Fatal? ==>
              Run(env, c) == Error(VerificationFailed)
  {
  }

  /** The re-checks of type and purpose after the filter never reject. */
  lemma ProofRechecksNeverReject(env: Env, c: Credential)
    ensures !(Run(env, c).Error? && Run(env, c).reason.UnknownProofType?)
    ensures !(Run(env, c).Error? && Run(env, c).reason.InvalidProofPurpose?)
  {

  }

  /** Selection follows list order: proofs in front that are not candidates
      only shift the index of the selected proof. */
  lemma {:induction false} NonCandidatesInFrontShiftSelection(front: seq<Proof>, ps: seq<Proof>)
    requires forall j :: 0 <= j < |front| ==> !IsCandidate(front[j])
    ensures FirstCandidate(front + ps)
            == (match FirstCandidate(ps) case None => None case Some(i) => Some(|front| + i))
  {
    if front != [] {
      assert (front + ps)[1..] == front[1..] + ps;
      NonCandidatesInFrontShiftSelection(front[1..], ps);
    } else {
      assert front + ps == ps;
    }
  }

  /** Proofs after the selected one are never looked at. */
  lemma {:induction false} LaterProofsIgnored(ps: seq<Proof>, later: seq<Proof>)
    requires FirstCandidate(ps).Some?
    ensures FirstCandidate(ps + later) == FirstCandidate(ps)
  {
    if !IsCandidate(ps[0]) {
      assert (ps + later)[1..] == ps[1..] + later;
      LaterProofsIgnored(ps[1..], later);
    }
  }

  /** A missing or empty proof list is rejected before any collaborator is
      consulted: the outcome is the same whatever they do. */
  lemma MissingProofConsultsNothing(env: Env, other: Env, c: Credential)
    requires c.proofs.None? || c.proofs.value == []
    ensures Run(env, c) == Error(MissingProof)
    ensures Run(other, c) == Run(env, c)
  {
  }

  /** Proofs none of which has the expected type and purpose are rejected
      before any collaborator is consulted. */
  lemma NoCandidateConsultsNothing(env: Env, other: Env, c: Credential)
    requires c.proofs.Some? && c.proofs.value != []
    requires forall p :: p in c.proofs.value ==> !IsCandidate(p)
    ensures Run(env, c) == Error(NoMatchingProof)
    ensures Run(other, c) == Run(env, c)
  {

  }

  /** The document loader is consulted only for an http or https method
      without a key fragment: elsewhere any loader gives the same outcome. */
  lemma LoaderOnlyForRemoteDocuments(env: Env, load: Uri -> LoadResult, c: Credential)
    requires SelectProof(c.proofs).Ok?
    requires var m := SelectProof(c.proofs).value.verificationMethod;
             HasKeyFragment(env.multibaseDecode, m) || !IsHttpScheme(m)
    ensures Run(env.(load := load), c) == Run(env, c)
  {

  }

  /** A fragment that is a valid key is used as the key, whatever the scheme,
      and the text before the first '#' must be the issuer: with the issuer
      it verifies end to end, with any other issuer it is rejected. */
  lemma FragmentKeyEndToEnd(env: Env, c: Credential, p: Proof, key: seq<byte>)
    requires SelectProof(c.proofs) == Ok(p)
    requires p.verificationMethod.fragment.Some?
    requires |key| == Ed25519KeyLength
    requires env.multibaseDecode(p.verificationMethod.fragment.value) == Ok(MulticodecEncode(key))
    ensures c.issuer == BeforeFragment(p.verificationMethod) && env.verify(key, c, p) == Returned(true)
            ==> Run(env, c) == Success
    ensures c.issuer != BeforeFragment(p.verificationMethod)
            ==> Run(env, c) == Error(ControllerMismatch(c.issuer))
  {

  }

  /** A `did:key` method whose key carries another multicodec tag is
      rejected as not an Ed25519 key. */
  lemma DidKeyWithOtherCodecRejected(env: Env, c: Credential, p: Proof, multicodec: seq<byte>)
    requires SelectProof(c.proofs) == Ok(p)
    requires var m := p.verificationMethod;
             !HasKeyFragment(env.multibaseDecode, m) && m.scheme == Some("did")
             && StartsWith(m.schemeSpecificPart, "key:")
    requires env.multibaseDecode(p.verificationMethod.schemeSpecificPart[4..]) == Ok(multicodec)
    requires |multicodec| >= 2 && !HasEd25519Tag(multicodec)
    ensures Run(env, c) == Error(NotEd25519Key)
  {

  }

  /** On the main path the key length is not checked: a `did:key` whose
      decoded bytes carry the Ed25519 tag reaches the verifier with the
      bytes after the tag, however many there are. */
  lemma DidKeyOfAnyLengthReachesVerifier(env: Env, c: Credential, p: Proof, key: seq<byte>)
    requires SelectProof(c.proofs) == Ok(p)
    requires var m := p.verificationMethod;
             !HasKeyFragment(env.multibaseDecode, m) && m.scheme == Some("did")
             && StartsWith(m.schemeSpecificPart, "key:")
    requires env.multibaseDecode(p.verificationMethod.schemeSpecificPart[4..]) == Ok(MulticodecEncode(key))
    ensures Prepare(env, c) == Ok(VerifierCall(key, p))
  {

  }

  /** An http(s) key document the loader does not find is a rejection, not
      a fatal outcome; so is a loader that raises. */
  lemma RemoteLoadFailuresAreRejections(env: Env, c: Credential, p: Proof)
    requires SelectProof(c.proofs) == Ok(p)
    requires !HasKeyFragment(env.multibaseDecode, p.verificationMethod) && IsHttpScheme(p.verificationMethod)
    ensures env.load(p.verificationMethod) == Loaded(None)
            ==> Run(env, c) == Error(KeyDocumentNotFound(p.verificationMethod.text))
    ensures env.load(p.verificationMethod).LoadThrew?
            ==> Run(env, c) == Error(InvalidVerificationKeyUrl(LoaderThrew(env.load(p.verificationMethod).message)))
  {
  }

  /** An http(s) key document with a non-blank `controller` resolves to its
      own `publicKeyMultibase` and that controller. */
  lemma RemoteKeyDocumentResolves(env: Env, m: Uri, doc: map<string, Json>, controller: string, key: string)
    requires !HasKeyFragment(env.multibaseDecode, m) && IsHttpScheme(m)
    requires env.load(m) == Loaded(Some(JObject(doc)))
    requires "controller" in doc && doc["controller"] == JString(controller) && !IsBlank(Some(controller))
    requires "publicKeyMultibase" in doc && doc["publicKeyMultibase"] == JString(key)
    ensures Resolve(env, m) == Ok(KeyMaterial(key, Some(controller)))
  {
  }

  /** An http(s) controller document (blank top-level `controller`) resolves
      to the key and controller of its `verificationMethod` object; an empty
      object cannot be parsed. */
  lemma RemoteControllerDocumentResolves(env: Env, m: Uri, doc: map<string, Json>, vm: map<string, Json>)
    requires !HasKeyFragment(env.multibaseDecode, m) && IsHttpScheme(m)
    requires env.load(m) == Loaded(Some(JObject(doc)))
    requires "controller" in doc && doc["controller"].JString? && IsBlank(Some(doc["controller"].text))
    requires "verificationMethod" in doc && doc["verificationMethod"] == JObject(vm)
    ensures vm == map[] ==> Resolve(env, m) == Err(CannotParseKeyDocument(m.text))
    ensures HasString(vm, "controller") && HasString(vm, "publicKeyMultibase") ==>
              Resolve(env, m) == Ok(KeyMaterial(vm["publicKeyMultibase"].text, Some(vm["controller"].text)))
  {
  }

  /** A controller document whose `verificationMethod` is an array, as in a
      DID document, is rejected: `getJsonObject` raises a class cast. */
  lemma VerificationMethodArrayRejected(env: Env, m: Uri, doc: map<string, Json>, methods: seq<Json>)
    requires !HasKeyFragment(env.multibaseDecode, m) && IsHttpScheme(m)
    requires env.load(m) == Loaded(Some(JObject(doc)))
    requires "controller" in doc && doc["controller"].JString? && IsBlank(Some(doc["controller"].text))
    requires "verificationMethod" in doc && doc["verificationMethod"] == JArray(methods)
    ensures Resolve(env, m)
            == Err(InvalidVerificationKeyUrl(JsonFailed(NotAnObjectMember("verificationMethod"))))
  {
  }

  /** A fetched document without a top-level `controller` string is never
      read as a controller document: the lookup raises first. This restates
      one case of `ReadKeyDocument`'s contract on its own, because it is
      where the code departs from its comment: a DID document, which usually
      has no top-level `controller`, never reaches the `verificationMethod`
      branch. */
  lemma ControllerDocumentNeedsBlankController(members: map<string, Json>)
    requires "controller" !in members || !members["controller"].JString?
    ensures ReadKeyDocument(JObject(members)).Err?
    ensures ReadKeyDocument(JObject(members)).error
            == (if "controller" in members then NotAString("controller") else MemberMissing("controller"))
  {
  }

  /** A verifier that raises gives Fatal, one that answers false gives a
      rejection: the two are told apart. */
  lemma VerifierThrowAndFalseDiffer(
    env: Env, verify: (seq<byte>, Credential, Proof) -> VerifyResult, c: Credential, message: string)
    requires Prepare(env, c).Ok?
    requires env.verify(Prepare(env, c).value.publicKey, c, Prepare(env, c).value.proof) == Threw(message)
    requires verify(Prepare(env, c).value.publicKey, c, Prepare(env, c).value.proof) == Returned(false)
    ensures Run(env, c) == Fatal(message)
    ensures Run(env.(verify := verify), c) == Error(VerificationFailed)
  {

  }
}
