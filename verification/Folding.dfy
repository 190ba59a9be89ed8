// Exporting a proof: constant public inputs are folded into the first key point, which can therefore be published
// before any proof exists.
module Folding {
  import opened Bytes
  import opened Script
  import opened BridgeDigest
  import opened Accounts
  import opened Envelope

  /** The curve group, as far as folding uses it. */
  datatype Curve<!P(!new)> = Curve(zero: P, add: (P, P) -> P, times: (P, nat) -> P) {
    ghost predicate Valid() {
      && (forall a, b, c :: add(add(a, b), c) == add(a, add(b, c)))
      && (forall a, b :: add(a, b) == add(b, a))
      && (forall a :: add(a, zero) == a) && forall a :: times(a, 0) == zero
    }
  }

  /** A verification key: `inputs` are its points for the constant and the public inputs. */
  datatype Key<P, Q> = Key(alpha: P, beta: Q, gamma: Q, delta: Q, inputs: seq<P>)

  datatype Proof<P, Q> = Proof(a: P, b: Q, c: P)

  /** The pairing equation, given the combined input point. */
  type Pairing<!P, !Q> = (P, Q, Q, Q, Proof<P, Q>, P) -> bool

  /** The input point of a list of public scalars. */
  function Combined<P(!new)>(c: Curve<P>, inputs: seq<P>, scalars: seq<nat>): P
    requires |inputs| == |scalars| + 1
  {
    if scalars == [] then inputs[0]
    else
      var n := |scalars| - 1;
      c.add(Combined(c, inputs[..n + 1], scalars[..n]), c.times(inputs[n + 1], scalars[n]))
  }

  /** The verifier of the library: a key of the wrong length is an error, which reads as a refusal. */
  predicate Verifies<P(!new), Q>(c: Curve<P>, pairs: Pairing<P, Q>, k: Key<P, Q>, proof: Proof<P, Q>,
                                 scalars: seq<nat>)
  {
    |k.inputs| == |scalars| + 1 && pairs(k.alpha, k.beta, k.gamma, k.delta, proof, Combined(c, k.inputs, scalars))
  }

  /** The first point with the program key and the recursion root folded in. */
  function FoldedPoint<P(!new)>(c: Curve<P>, inputs: seq<P>, program: nat, root: nat): P
    requires |inputs| == 6
  {
    c.add(c.add(inputs[0], c.times(inputs[1], program)), c.times(inputs[4], root))
  }

  function Folded<P(!new), Q>(c: Curve<P>, k: Key<P, Q>, program: nat, root: nat): Key<P, Q>
    requires |k.inputs| == 6
  {
    k.(inputs := [FoldedPoint(c, k.inputs, program, root), k.inputs[2], k.inputs[5]])
  }

  lemma CombinedThree<P(!new)>(c: Curve<P>, i: seq<P>, s: seq<nat>)
    requires |i| == 3 && |s| == 2
    ensures Combined(c, i, s) == c.add(c.add(i[0], c.times(i[1], s[0])), c.times(i[2], s[1]))
  {
    assert s[..1][..0] == [] && Combined(c, i[..2][..1], s[..1][..0]) == i[0];
    assert Combined(c, i[..2], s[..1]) == c.add(i[0], c.times(i[1], s[0]));
  }

  lemma CombinedSix<P(!new)>(c: Curve<P>, i: seq<P>, s: seq<nat>)
    requires |i| == 6 && |s| == 5
    ensures var three := c.add(c.add(c.add(i[0], c.times(i[1], s[0])), c.times(i[2], s[1])), c.times(i[3], s[2]));
            Combined(c, i, s) == c.add(c.add(three, c.times(i[4], s[3])), c.times(i[5], s[4]))
  {
    var three := Combined(c, i[..3], s[..2]);
    CombinedThree(c, i[..3], s[..2]);
    assert Combined(c, i[..4], s[..3]) == c.add(three, c.times(i[3], s[2])) by {
      assert i[..4][..3] == i[..3] && s[..3][..2] == s[..2];
    }
    assert Combined(c, i[..5], s[..4]) == c.add(Combined(c, i[..4], s[..3]), c.times(i[4], s[3])) by {
      assert i[..5][..4] == i[..4] && s[..4][..3] == s[..3];
    }
  }

  /** Folding keeps the input point, because the exit code is zero. */
  lemma FoldingKeepsPoint<P(!new)>(c: Curve<P>, i: seq<P>, s: seq<nat>)
    requires c.Valid() && |i| == 6 && |s| == 5 && s[2] == 0
    ensures Combined(c, [FoldedPoint(c, i, s[0], s[3]), i[2], i[5]], [s[1], s[4]]) == Combined(c, i, s)
  {
    CombinedSix(c, i, s);
    CombinedThree(c, [FoldedPoint(c, i, s[0], s[3]), i[2], i[5]], [s[1], s[4]]);
    var head, x, y := c.add(i[0], c.times(i[1], s[0])), c.times(i[2], s[1]), c.times(i[4], s[3]);
    calc {
      c.add(c.add(c.add(head, x), c.times(i[3], s[2])), y);
      c.add(c.add(head, x), y);
      c.add(head, c.add(x, y));
      c.add(head, c.add(y, x));
      c.add(c.add(head, y), x);
    }
  }

  /** A proof verifies under the folded key exactly when it does under the full one. */
  lemma FoldingKeepsVerdict<P(!new), Q>(c: Curve<P>, pairs: Pairing<P, Q>, k: Key<P, Q>, proof: Proof<P, Q>,
                                        s: seq<nat>)
    requires c.Valid() && |k.inputs| == 6 && |s| == 5 && s[2] == 0
    ensures Verifies(c, pairs, Folded(c, k, s[0], s[3]), proof, [s[1], s[4]]) <==> Verifies(c, pairs, k, proof, s)
  {
    FoldingKeepsPoint(c, k.inputs, s);
  }

  // ---------- publishing and exporting ----------

  function Modulus(): nat { ValBE(FR_MODULUS_BE) }

  function Scalars(inputs: seq<bytes>): (s: seq<nat>)
    ensures |s| == |inputs| && forall i :: 0 <= i < |s| ==> s[i] == ValBE(inputs[i]) % Modulus()
  {
    assert Modulus() > 0 by { ModulusPositive(); }
    seq(|inputs|, i requires 0 <= i < |inputs| && Modulus() > 0 => ValBE(inputs[i]) % Modulus())
  }

  lemma ModulusPositive()
    ensures Modulus() > 0
  {
    CanonicalMeans(Zeros(32));
    ZeroIsCanonical();
  }

  lemma CanonicalKept(b: bytes)
    ensures Modulus() > 0
    ensures ValBE(b) % Modulus() == ValBE(b) <==> ValBE(b) < Modulus()
  {
    hide ValBE;
    ModulusPositive();
  }

  /** Coordinates and points that the host checks before it trusts them. */
  datatype Checks<!P(!new), !Q> = Checks(goodP: P -> bool, goodQ: Q -> bool) {
    predicate KeyGood(k: Key<P, Q>) {
      && (forall i :: 0 <= i < |k.inputs| ==> goodP(k.inputs[i])) && goodP(k.alpha)
      && goodQ(k.beta) && goodQ(k.gamma) && goodQ(k.delta)
    }

    predicate ProofGood(p: Proof<P, Q>) { goodP(p.a) && goodP(p.c) && goodQ(p.b) }
  }

  datatype HostError = BadEnvelope(error: EnvelopeError) | BadProof | WrongCount | NoncanonicalProgram | InfiniteKey
                     | BadPoint | NotVerified | FoldedNotVerified

  datatype Published<P, Q> = Constants(key: Key<P, Q>) | NotPublished(error: HostError)

  datatype Outcome<P, Q> = Exported(key: Key<P, Q>, proof: Proof<P, Q>, input0: bytes, input1: bytes)
                         | NotExported(error: HostError)

  /** `deployment_key`: the constants fixed before any proof. */
  method DeploymentKey<P(!new,==), Q>(c: Curve<P>, k: Key<P, Q>, program: bytes, vkRoot: bytes)
    returns (r: Published<P, Q>)
    requires |program| == 32 && |vkRoot| == 32
    ensures r.Constants? <==>
            && |k.inputs| == 6 && ValBE(program) < Modulus() && Modulus() > 0
            && FoldedPoint(c, k.inputs, ValBE(program), ValBE(vkRoot) % Modulus()) != c.zero
    ensures r.Constants? ==> r.key == Folded(c, k, ValBE(program), ValBE(vkRoot) % Modulus())
    ensures r.NotPublished? ==>
              r.error == if |k.inputs| != 6 then WrongCount
                         else if ValBE(program) >= Modulus() then NoncanonicalProgram else InfiniteKey
  {
    hide ValBE, FoldedPoint;
    CanonicalKept(program);
    if |k.inputs| != 6 {
      return NotPublished(WrongCount);
    }
    var scalar := ValBE(program) % Modulus();
    if scalar != ValBE(program) {
      return NotPublished(NoncanonicalProgram);
    }
    var root := ValBE(vkRoot) % Modulus();
    if FoldedPoint(c, k.inputs, scalar, root) == c.zero {
      return NotPublished(InfiniteKey);
    }
    r := Constants(Folded(c, k, scalar, root));
  }

  /** The envelope and the proof in it that an export accepts. */
  predicate Exportable<P(!new), Q>(sha: Hash, c: Curve<P>, checks: Checks<P, Q>, pairs: Pairing<P, Q>, k: Key<P, Q>,
                                   load: bytes -> Option<Proof<P, Q>>, proof: bytes, values: bytes, program: bytes,
                                   vkRoot: bytes)
  {
    && |proof| == ENCODED_PROOF_LEN && load(proof[100..]).Some? && |k.inputs| == 6 && checks.KeyGood(k)
    && checks.ProofGood(load(proof[100..]).value)
    && Verifies(c, pairs, k, load(proof[100..]).value, Scalars(Inputs(sha, proof, values, program, vkRoot)))
  }

  lemma EnvelopeScalars(sha: Hash, proof: bytes, values: bytes, program: bytes, vkRoot: bytes)
    requires |proof| == ENCODED_PROOF_LEN && ValBE(program) < Modulus() && ValBE(vkRoot) < Modulus()
    requires ValBE(proof[68..100]) < Modulus()
    ensures Modulus() > 0
    ensures Scalars(Inputs(sha, proof, values, program, vkRoot)) ==
            [ValBE(program), ValBE(MaskedDigest(sha, values)), 0, ValBE(vkRoot), ValBE(proof[68..100])]
    ensures ValBE(vkRoot) % Modulus() == ValBE(vkRoot)
  {
    hide MaskedDigest;
    ModulusPositive();
    MaskedIsCanonical(sha, values);
    CanonicalKept(program);
    CanonicalKept(vkRoot);
    CanonicalKept(MaskedDigest(sha, values));
    CanonicalKept(proof[68..100]);
    ZeroBE(32);
  }

  lemma {:induction false} ZeroBE(n: nat)
    ensures ValBE(Zeros(n)) == 0
  {
    if n > 0 {
      assert Zeros(n)[..n - 1] == Zeros(n - 1);
      ZeroBE(n - 1);
    }
  }

  /** `export` succeeds exactly for a well-formed envelope whose proof the full key verifies and whose folded key is
      finite: folded verification never fails on its own. The constants it returns are those published for its program,
      and its two inputs are the masked digest of the values and the nonce. */
  method Export<P(!new,==), Q(==)>(sha: Hash, c: Curve<P>, checks: Checks<P, Q>, pairs: Pairing<P, Q>, k: Key<P, Q>,
                                   load: bytes -> Option<Proof<P, Q>>, proof: bytes, values: bytes, program: bytes,
                                   vk: bytes, vkRoot: bytes) returns (r: Outcome<P, Q>)
    requires c.Valid() && |program| == 32 && |vkRoot| == 32
    ensures Modulus() > 0
    ensures r.Exported? <==>
            && |proof| == 356 && proof[..4] == Sha(sha, vk)[..4] && proof[4..36] == Zeros(32) && proof[36..68] == vkRoot
            && ValBE(program) < Modulus() && ValBE(vkRoot) < Modulus() && ValBE(proof[68..100]) < Modulus()
            && Exportable(sha, c, checks, pairs, k, load, proof, values, program, vkRoot)
            && FoldedPoint(c, k.inputs, ValBE(program), ValBE(vkRoot) % Modulus()) != c.zero
    ensures r.Exported? ==>
            && |k.inputs| == 6 && |proof| == 356 && r.key == Folded(c, k, ValBE(program), ValBE(vkRoot) % Modulus())
            && InputIs(r.input0, MaskedDigest(sha, values)) && Val(r.input1) == ValBE(proof[68..100])
            && load(proof[100..]) == Some(r.proof) && Verifies(c, pairs, r.key, r.proof, [Val(r.input0), Val(r.input1)])
    ensures r.NotExported? ==>
              match Decoding(sha, proof, values, program, vk, vkRoot)
              case Refused(e) => r.error == BadEnvelope(e)
              case Accepted(w) =>
                r.error == match load(w.raw)
                           case None => BadProof
                           case Some(p) =>
                             if |k.inputs| != 6 || !checks.KeyGood(k) || !checks.ProofGood(p) then BadPoint
                             else if !Verifies(c, pairs, k, p, Scalars(w.inputs)) then NotVerified
                             else FoldedNotVerified
  {
    hide MaskedDigest, FoldedPoint, Combined, ValBE, Sha;
    ModulusPositive();
    var decoded := Decode(sha, proof, values, program, vk, vkRoot);
    if decoded.Refused? {
      return NotExported(BadEnvelope(decoded.error));
    }
    var inputs := decoded.wrapper.inputs;
    EnvelopeScalars(sha, proof, values, program, vkRoot);
    var loaded := load(decoded.wrapper.raw);
    if loaded.None? {
      return NotExported(BadProof);
    }
    var p := loaded.value;
    if |k.inputs| != 6 || !checks.KeyGood(k) || !checks.ProofGood(p) {
      return NotExported(BadPoint);
    }
    var scalars := Scalars(inputs);
    if !Verifies(c, pairs, k, p, scalars) {
      return NotExported(NotVerified);
    }
    FoldingKeepsVerdict(c, pairs, k, p, scalars);
    var folded := Folded(c, k, scalars[0], scalars[3]);
    if folded.inputs[0] == c.zero || !Verifies(c, pairs, folded, p, [scalars[1], scalars[4]]) {
      return NotExported(FoldedNotVerified);
    }
    MaskedIsCanonical(sha, values);
    ModulusSmall();
    var input0 := Field(scalars[1], 32);
    var input1 := Field(scalars[4], 32);
    r := Exported(folded, p, input0, input1);
  }

  lemma ModulusSmall()
    ensures Modulus() < Pow256(32)
  {
    hide ValBE, Pow256;
    ValBEBound(FR_MODULUS_BE);
  }
}
