/** Who says a file carries a tag (tagging.py, and the merge of tags.py): people's curation beside machines' claims. */
module Tagging {
  import opened Common

  datatype Provenance = Manual | Confirmed | Rejected

  datatype Status = Active | Suggested | Refused

  datatype Curation = Curation(provenance: Provenance, user: nat)

  datatype Version = Version(file: nat, current: bool)

  datatype Run = Run(version: nat, extractor: nat, generation: nat)

  /** A machine's claim: one per version, tag and run. */
  datatype Claim = Claim(version: nat, run: nat, tag: nat, generation: nat, confidence: Option<int>)

  type Curations = map<(nat, nat), Curation>
  type Claims = map<nat, Claim>

  datatype Answer = UnknownTag | NotVocabulary | NothingToConfirm | Done

  /** One tag as a file carries it; `auto` has no author, and the claim behind a tag is kept with it. */
  datatype Applied = Applied(tag: nat, curation: Option<Curation>, source: Option<nat>)

  predicate Says(curation: Curations, file: nat, tag: nat, p: Provenance) {
    (file, tag) in curation && curation[(file, tag)].provenance == p
  }

  predicate Positive(curation: Curations, file: nat, tag: nat) {
    (file, tag) in curation && curation[(file, tag)].provenance != Rejected
  }

  /** Some version of the file is claimed to carry the tag. */
  predicate ClaimsOn(version: map<nat, Version>, claim: Claims, c: nat, file: nat, tag: nat) {
    c in claim && claim[c].tag == tag && claim[c].version in version && version[claim[c].version].file == file
  }

  ghost predicate NoClaim(version: map<nat, Version>, claim: Claims, file: nat, tag: nat) {
    forall c :: !ClaimsOn(version, claim, c, file, tag)
  }

  /** A claim on a file whose curation says no to its tag. */
  predicate Refusing(curation: Curations, version: map<nat, Version>, claim: Claims, c: nat) {
    c in claim && claim[c].version in version && Says(curation, version[claim[c].version].file, claim[c].tag, Rejected)
  }

  /** The invariant: no machine's claim is left where a person said no. */
  ghost predicate Clean(curation: Curations, version: map<nat, Version>, claim: Claims) {
    forall c :: c in claim ==> !Refusing(curation, version, claim, c)
  }

  /** Said by file and tag: a rejected pair has no claim on any version, current or past. */
  lemma CleanPairs(curation: Curations, version: map<nat, Version>, claim: Claims)
    ensures Clean(curation, version, claim) <==> forall f: nat, t: nat :: Says(curation, f, t, Rejected) ==>
      NoClaim(version, claim, f, t)
  {
    if Clean(curation, version, claim) {
      forall f: nat, t: nat | Says(curation, f, t, Rejected) ensures NoClaim(version, claim, f, t) {
        forall c ensures !ClaimsOn(version, claim, c, f, t) {
          assert c in claim ==> !Refusing(curation, version, claim, c);
        }
      }
    } else {
      var c :| c in claim && Refusing(curation, version, claim, c);
      assert ClaimsOn(version, claim, c, version[claim[c].version].file, claim[c].tag);
    }
  }

  /** Rows refer to rows. */
  ghost predicate Referring(version: map<nat, Version>, run: map<nat, Run>, claim: Claims) {
    forall c :: c in claim ==>
      claim[c].version in version && claim[c].run in run && run[claim[c].run].version == claim[c].version
  }

  /** The run claimed this tag of this version before. */
  predicate AlreadyClaimed(claim: Claims, v: nat, tag: nat, r: nat) {
    exists c :: c in claim && claim[c].version == v && claim[c].tag == tag && claim[c].run == r
  }

  // ------------------------------------------------------------------ what a run says

  type Label = (string, Option<int>)

  /** What words meant they still mean; this one means a tag, and if it is new one that waits to be approved. */
  ghost predicate Learned(named: map<string, nat>, status: map<nat, Status>, named': map<string, nat>,
                          status': map<nat, Status>, word: string)
  {
    word in named' && (word in named ==> named' == named && status' == status) &&
    (word !in named ==>
      named'[word] !in status && named' == named[word := named'[word]] && status' == status[named'[word] := Suggested])
  }

  /** The same, word by word, for the first so many labels. */
  ghost predicate Taught(named0: map<string, nat>, status0: map<nat, Status>, named: map<string, nat>,
                         status: map<nat, Status>, labels: seq<Label>, n: nat)
  {
    n <= |labels| && (forall m :: 0 <= m < n ==> labels[m].0 in named) &&
    (forall w :: w in named0 ==> w in named && named[w] == named0[w]) &&
    (forall t :: t in status0 ==> t in status && status[t] == status0[t]) &&
    forall w :: w in named && w !in named0 ==>
      named[w] !in status0 && named[w] in status && status[named[w]] == Suggested && exists m :: 0 <= m < n && labels[m].0 == w
  }

  /** The run claims the tag of this word, unless the word is refused or the file rejected the tag. */
  ghost predicate Heard(curation: Curations, status: map<nat, Status>, named: map<string, nat>, claim: Claims, file: nat,
                        v: nat, r: nat, word: string)
  {
    word in named && named[word] in status &&
    (status[named[word]] == Refused || Says(curation, file, named[word], Rejected)
    || AlreadyClaimed(claim, v, named[word], r))
  }

  /** The claim is what the label says, in the run's name, and no label before it has its tag. */
  ghost predicate SaidBy(named: map<string, nat>, c: Claim, v: nat, r: nat, generation: nat, labels: seq<Label>, m: nat)
    requires m < |labels|
  {
    labels[m].0 in named && c == Claim(v, r, named[labels[m].0], generation, labels[m].1) &&
    forall k :: 0 <= k < m ==> labels[k].0 in named && named[labels[k].0] != c.tag
  }

  /** Whatever was claimed anew some label says, of a tag the run had not claimed and the file had not rejected. */
  ghost predicate OnlySaid(curation: Curations, named: map<string, nat>, before: Claims, claim: Claims, file: nat, v: nat,
                           r: nat, generation: nat, labels: seq<Label>, n: nat)
  {
    n <= |labels| &&
    (forall c :: c in claim && c !in before ==>
      !Says(curation, file, claim[c].tag, Rejected) && !AlreadyClaimed(before, v, claim[c].tag, r)) &&
    (forall c :: c in claim && c !in before ==>
      exists m :: 0 <= m < n && SaidBy(named, claim[c], v, r, generation, labels, m)) &&
    forall c, d :: c in claim && c !in before && d in claim && d !in before && claim[c].tag == claim[d].tag ==> c == d
  }

  /** So the number of claims written is the number of tags claimed anew. */
  lemma WrittenAreTags(curation: Curations, named: map<string, nat>, before: Claims, claim: Claims, file: nat, v: nat,
                       r: nat, generation: nat, labels: seq<Label>, tags: set<nat>)
    requires OnlySaid(curation, named, before, claim, file, v, r, generation, labels, |labels|)
    requires forall c :: c in before ==> c in claim && claim[c] == before[c]
    requires forall t :: t in tags <==> AlreadyClaimed(claim, v, t, r) && !AlreadyClaimed(before, v, t, r)
    ensures |claim| - |before| == |tags|
  {
    hide Says, OnlySaid, AlreadyClaimed;
    var fresh' := claim.Keys - before.Keys;
    assert claim.Keys == before.Keys + fresh' && |claim.Keys| == |claim| && |before.Keys| == |before|;
    forall t | t in tags ensures exists c :: c in fresh' && claim[c].tag == t {
      var c := NewOfTag(before, claim, v, t, r);
    }
    OnlySaidParts(curation, named, before, claim, file, v, r, generation, labels);
    forall c | c in fresh' ensures claim[c].tag in tags {
      ClaimedBy(claim, c);
    }
    TagByTag(claim, fresh', tags);
  }

  lemma NewOfTag(before: Claims, claim: Claims, v: nat, tag: nat, r: nat) returns (c: nat)
    requires (forall c :: c in before ==> c in claim && claim[c] == before[c])
    requires AlreadyClaimed(claim, v, tag, r) && !AlreadyClaimed(before, v, tag, r)
    ensures c in claim && c !in before && claim[c].tag == tag
  {
    c :| c in claim && claim[c].version == v && claim[c].tag == tag && claim[c].run == r;
  }

  lemma OnlySaidParts(curation: Curations, named: map<string, nat>, before: Claims, claim: Claims, file: nat, v: nat,
                      r: nat, generation: nat, labels: seq<Label>)
    requires OnlySaid(curation, named, before, claim, file, v, r, generation, labels, |labels|)
    ensures forall c :: c in claim && c !in before ==>
      claim[c].version == v && claim[c].run == r && !AlreadyClaimed(before, v, claim[c].tag, r)
    ensures forall c, d :: c in claim && c !in before && d in claim && d !in before && claim[c].tag == claim[d].tag ==>
      c == d
  {
    hide Says, AlreadyClaimed;
    forall c | c in claim && c !in before ensures claim[c].version == v && claim[c].run == r {
      var m :| 0 <= m < |labels| && SaidBy(named, claim[c], v, r, generation, labels, m);
    }
  }

  lemma {:induction false} TagByTag(claim: Claims, ids: set<nat>, tags: set<nat>)
    requires forall c :: c in ids ==> c in claim && claim[c].tag in tags
    requires forall c, d :: c in ids && d in ids && claim[c].tag == claim[d].tag ==> c == d
    requires forall t :: t in tags ==> exists c :: c in ids && claim[c].tag == t
    ensures |ids| == |tags|
    decreases ids
  {
    if ids == {} {
      assert tags == {};
    } else {
      var c :| c in ids;
      TagByTag(claim, ids - {c}, tags - {claim[c].tag});
    }
  }

  /** What a run's labels may change. */
  datatype View = View(named: map<string, nat>, status: map<nat, Status>, claim: Claims)

  ghost predicate SaidSoFar(curation: Curations, start: View, now: View, file: nat, v: nat, r: nat, generation: nat,
                            labels: seq<Label>, n: nat, written: nat)
  {
    n <= |labels| && Taught(start.named, start.status, now.named, now.status, labels, n) &&
    (forall m :: 0 <= m < n ==> Heard(curation, now.status, now.named, now.claim, file, v, r, labels[m].0)) &&
    OnlySaid(curation, now.named, start.claim, now.claim, file, v, r, generation, labels, n) &&
    (forall c :: c in start.claim ==> c in now.claim && now.claim[c] == start.claim[c]) &&
    written == |now.claim| - |start.claim|
  }

  lemma SaidParts(curation: Curations, start: View, now: View, file: nat, v: nat, r: nat, generation: nat,
                  labels: seq<Label>, written: nat)
    requires SaidSoFar(curation, start, now, file, v, r, generation, labels, |labels|, written)
    ensures Taught(start.named, start.status, now.named, now.status, labels, |labels|)
    ensures forall m :: 0 <= m < |labels| ==> Heard(curation, now.status, now.named, now.claim, file, v, r, labels[m].0)
    ensures OnlySaid(curation, now.named, start.claim, now.claim, file, v, r, generation, labels, |labels|)
    ensures forall c :: c in start.claim ==> c in now.claim && now.claim[c] == start.claim[c]
    ensures written == |now.claim| - |start.claim|
  {
    hide Taught, Heard, OnlySaid;
  }

  lemma NothingSaid(curation: Curations, start: View, file: nat, v: nat, r: nat, generation: nat, labels: seq<Label>)
    ensures SaidSoFar(curation, start, start, file, v, r, generation, labels, 0, 0)
  {
  }

  lemma OneMoreSaid(curation: Curations, start: View, before: View, now: View, file: nat, v: nat, r: nat, generation: nat,
                    labels: seq<Label>, n: nat, id: nat, wrote: bool, so: nat, written: nat)
    requires n < |labels| && SaidSoFar(curation, start, before, file, v, r, generation, labels, n, so)
    requires Learned(before.named, before.status, now.named, now.status, labels[n].0)
    requires Said(curation, now.named, now.status, before.claim, now.claim, file, v, r, generation, labels[n], id, wrote)
    requires (forall c :: c in before.claim ==> c in now.claim && now.claim[c] == before.claim[c])
    requires |now.claim| == |before.claim| + (if wrote then 1 else 0) && written == so + if wrote then 1 else 0
    ensures SaidSoFar(curation, start, now, file, v, r, generation, labels, n + 1, written)
  {
    hide Taught, Heard, OnlySaid, Learned, Said;
    LabelTaught(start.named, start.status, before.named, before.status, now.named, now.status, labels, n);
    LabelHeard(curation, before.status, now.status, before.named, now.named, before.claim, now.claim, file, v, r,
      generation, labels, n, id, wrote);
    LabelSaid(curation, before.status, now.status, before.named, now.named, start.claim, before.claim, now.claim, file, v,
      r, generation, labels, n, id, wrote);
  }

  lemma LabelTaught(named0: map<string, nat>, status0: map<nat, Status>, named: map<string, nat>,
                    status: map<nat, Status>, named': map<string, nat>, status': map<nat, Status>, labels: seq<Label>,
                    n: nat)
    requires n < |labels| && Taught(named0, status0, named, status, labels, n)
    requires Learned(named, status, named', status', labels[n].0)
    ensures Taught(named0, status0, named', status', labels, n + 1)
  {
    forall w | w in named' && w !in named0
      ensures named'[w] !in status0 && named'[w] in status' && status'[named'[w]] == Suggested
      ensures exists m :: 0 <= m < n + 1 && labels[m].0 == w
    {
      if w in named {
        var m :| 0 <= m < n && labels[m].0 == w;
      } else {
        assert labels[n].0 == w;
      }
    }
  }

  /** What one label does to the claims. */
  ghost predicate Said(curation: Curations, named: map<string, nat>, status: map<nat, Status>, claim: Claims,
                       claim': Claims, file: nat, v: nat, r: nat, generation: nat, one: Label, id: nat, wrote: bool)
  {
    one.0 in named && named[one.0] in status &&
    (wrote <==> !Heard(curation, status, named, claim, file, v, r, one.0)) &&
    if wrote then id !in claim && claim' == claim[id := Claim(v, r, named[one.0], generation, one.1)] else claim' == claim
  }

  lemma LabelHeard(curation: Curations, status: map<nat, Status>, status': map<nat, Status>, named: map<string, nat>,
                   named': map<string, nat>, claim: Claims, claim': Claims, file: nat, v: nat, r: nat, generation: nat,
                   labels: seq<Label>, n: nat, id: nat, wrote: bool)
    requires n < |labels| && Learned(named, status, named', status', labels[n].0)
    requires forall m :: 0 <= m < n ==> Heard(curation, status, named, claim, file, v, r, labels[m].0)
    requires Said(curation, named', status', claim, claim', file, v, r, generation, labels[n], id, wrote)
    ensures forall m :: 0 <= m < n + 1 ==> Heard(curation, status', named', claim', file, v, r, labels[m].0)
  {
    hide Says;
    forall m | 0 <= m < n + 1 ensures Heard(curation, status', named', claim', file, v, r, labels[m].0) {
      if m < n {
        assert Heard(curation, status, named, claim, file, v, r, labels[m].0);
        StillClaimed(claim, claim', v, named[labels[m].0], r);
      } else if wrote {
        assert id in claim';
      }
    }
  }

  lemma StillClaimed(claim: Claims, claim': Claims, v: nat, tag: nat, r: nat)
    requires forall c :: c in claim ==> c in claim' && claim'[c] == claim[c]
    ensures AlreadyClaimed(claim, v, tag, r) ==> AlreadyClaimed(claim', v, tag, r)
  {
    if c :| c in claim && claim[c].version == v && claim[c].tag == tag && claim[c].run == r {
      assert c in claim';
    }
  }

  lemma LabelSaid(curation: Curations, status: map<nat, Status>, status': map<nat, Status>, named: map<string, nat>,
                  named': map<string, nat>, before: Claims, claim: Claims, claim': Claims, file: nat, v: nat, r: nat,
                  generation: nat, labels: seq<Label>, n: nat, id: nat, wrote: bool)
    requires n < |labels| && Learned(named, status, named', status', labels[n].0)
    requires forall m :: 0 <= m < n ==> Heard(curation, status, named, claim, file, v, r, labels[m].0)
    requires OnlySaid(curation, named, before, claim, file, v, r, generation, labels, n)
    requires forall c :: c in before ==> c in claim && claim[c] == before[c]
    requires Said(curation, named', status', claim, claim', file, v, r, generation, labels[n], id, wrote)
    ensures OnlySaid(curation, named', before, claim', file, v, r, generation, labels, n + 1)
  {
    hide Says, AlreadyClaimed;
    forall c | c in claim && c !in before
      ensures exists m :: 0 <= m < n + 1 && SaidBy(named', claim[c], v, r, generation, labels, m)
    {
      var m :| 0 <= m < n && SaidBy(named, claim[c], v, r, generation, labels, m);
      assert SaidBy(named', claim[c], v, r, generation, labels, m);
    }
    if wrote {
      StillClaimed(before, claim, v, claim'[id].tag, r);
      forall k | 0 <= k < n ensures labels[k].0 in named' && named'[labels[k].0] != claim'[id].tag {
        assert Heard(curation, status, named, claim, file, v, r, labels[k].0);
      }
      assert SaidBy(named', claim'[id], v, r, generation, labels, n);
      forall d | d in claim && d !in before ensures claim[d].tag != claim'[id].tag {
        var m :| 0 <= m < n && SaidBy(named, claim[d], v, r, generation, labels, m);
        ClaimedBy(claim, d);
      }
    }
  }

  lemma ClaimedBy(claim: Claims, d: nat)
    requires d in claim
    ensures AlreadyClaimed(claim, claim[d].version, claim[d].tag, claim[d].run)
  {
  }

  // ------------------------------------------------------------------ what a reader sees

  predicate SameSource(run: map<nat, Run>, claim: Claims, a: nat, b: nat) {
    a in claim && b in claim && claim[a].version == claim[b].version && claim[a].run in run && claim[b].run in run
    && run[claim[a].run].extractor == run[claim[b].run].extractor
  }

  /** The latest generation its own extractor reached on its own version. */
  predicate Newest(run: map<nat, Run>, claim: Claims, c: nat) {
    c in claim && forall d :: d in claim && SameSource(run, claim, c, d) ==> claim[d].generation <= claim[c].generation
  }

  /** A claim that counts: on the file's current version, of the newest generation. */
  predicate Counts(version: map<nat, Version>, run: map<nat, Run>, claim: Claims, c: nat, file: nat) {
    c in claim && claim[c].version in version && version[claim[c].version].file == file
    && version[claim[c].version].current && Newest(run, claim, c)
  }

  /** No confidence counts as the least sure. */
  predicate Surer(claim: Claims, a: nat, b: nat)
    requires a in claim && b in claim
  {
    match (claim[a].confidence, claim[b].confidence)
    case (None, None) => claim[b].generation <= claim[a].generation
    case (None, Some(_)) => false
    case (Some(_), None) => true
    case (Some(x), Some(y)) => y < x || (x == y && claim[b].generation <= claim[a].generation)
  }

  /** A tag is on a file when a person said so, or when a machine says so and nobody has ruled. */
  ghost predicate Carries(curation: Curations, version: map<nat, Version>, run: map<nat, Run>, claim: Claims, file: nat,
                          tag: nat) {
    if (file, tag) in curation then curation[(file, tag)].provenance != Rejected
    else exists c :: Counts(version, run, claim, c, file) && claim[c].tag == tag
  }

  ghost predicate Best(version: map<nat, Version>, run: map<nat, Run>, claim: Claims, file: nat, tag: nat,
                       source: Option<nat>) {
    match source
    case None => forall c :: Counts(version, run, claim, c, file) ==> claim[c].tag != tag
    case Some(b) =>
      Counts(version, run, claim, b, file) && claim[b].tag == tag
      && forall c :: Counts(version, run, claim, c, file) && claim[c].tag == tag ==> Surer(claim, b, c)
  }

  /** No claim that counts for the tag is surer, a confidence beating none, and of two as sure none is of a later generation. */
  lemma BestIsSurest(version: map<nat, Version>, run: map<nat, Run>, claim: Claims, file: nat, tag: nat, b: nat, c: nat)
    requires Best(version, run, claim, file, tag, Some(b)) && Counts(version, run, claim, c, file) && claim[c].tag == tag
    ensures claim[b].tag == tag && (claim[c].confidence.Some? ==>
      claim[b].confidence.Some? && claim[c].confidence.value <= claim[b].confidence.value)
    ensures claim[c].confidence == claim[b].confidence ==> claim[c].generation <= claim[b].generation
  {
    hide Newest;
  }

  /** Which claims count: on a version that is the file's current one, where the same extractor has said nothing since. */
  lemma CountsExactly(version: map<nat, Version>, run: map<nat, Run>, claim: Claims, c: nat, file: nat)
    requires Referring(version, run, claim) && c in claim
    ensures Counts(version, run, claim, c, file) <==>
      version[claim[c].version] == Version(file, true) &&
      forall d :: d in claim && claim[d].version == claim[c].version && claim[d].generation > claim[c].generation ==>
        run[claim[d].run].extractor != run[claim[c].run].extractor
  {
    assert forall d :: d in claim ==> claim[d].run in run;
  }

  class Tags {
    var status: map<nat, Status>
    var named: map<string, nat>
    var version: map<nat, Version>
    var run: map<nat, Run>
    var curation: Curations
    var claim: Claims
    var nextTag: nat
    var nextClaim: nat

    constructor ()
      ensures Valid() && curation == map[] && claim == map[]
    {
      status, named, version, run, curation, claim, nextTag, nextClaim :=
        map[], map[], map[], map[], map[], map[], 0, 0;
    }

    ghost predicate Valid()
      reads this
    {
      Clean(curation, version, claim) && Referring(version, run, claim) && (forall c :: c in claim ==> c < nextClaim)
      && (forall t :: t in status ==> t < nextTag) && (forall n :: n in named ==> named[n] in status)
    }

    predicate Claimed(file: nat, tag: nat)
      reads this
    {
      exists c :: c in claim && ClaimsOn(version, claim, c, file, tag) && version[claim[c].version].current
    }

    // ---------------------------------------------------------------- people

    /** By hand. Idempotent, and it overrides a rejection. */
    method ApplyToFile(file: nat, tag: nat, user: nat) returns (answer: Answer)
      requires Valid()
      modifies this`curation
      ensures Valid()
      ensures answer == (if tag !in status then UnknownTag else if status[tag] != Active then NotVocabulary else Done)
      ensures curation == if answer == Done && !Positive(old(curation), file, tag) then old(curation)[(file, tag) := Curation(Manual, user)] else old(curation)
    {
      if tag !in status {
        return UnknownTag;
      }
      if status[tag] != Active {
        return NotVocabulary;
      }
      if !Positive(curation, file, tag) {
        curation := curation[(file, tag) := Curation(Manual, user)];
      }
      return Done;
    }

    /** Agree with a machine. Where a person said no there is nothing left to agree with. */
    method ConfirmOnFile(file: nat, tag: nat, user: nat) returns (answer: Answer)
      requires Valid()
      modifies this`curation
      ensures Valid()
      ensures answer == Done <==> tag in status && status[tag] == Active && Claimed(file, tag)
      ensures Claimed(file, tag) <==>
        exists c :: c in claim && claim[c].tag == tag && claim[c].version in version && version[claim[c].version] == Version(file, true)
      ensures Says(old(curation), file, tag, Rejected) ==> answer != Done
      ensures curation == if answer == Done && !Says(old(curation), file, tag, Confirmed) then old(curation)[(file, tag) := Curation(Confirmed, user)] else old(curation)
    {
      if tag !in status {
        return UnknownTag;
      }
      if status[tag] != Active {
        return NotVocabulary;
      }
      if !Claimed(file, tag) {
        return NothingToConfirm;
      }
      if !Says(curation, file, tag, Confirmed) {
        curation := curation[(file, tag) := Curation(Confirmed, user)];
      }
      return Done;
    }

    /**
     Taking a machine's tag off is a rejection and takes every claim with it; a tag only a person put on just goes.
    */
    method RemoveFromFile(file: nat, tag: nat, user: nat) returns (removed: bool)
      requires Valid()
      modifies this`curation, this`claim
      ensures Valid()
      ensures removed <==> Positive(old(curation), file, tag) || old(Claimed(file, tag))
      ensures old(Claimed(file, tag)) <==>
        exists c :: c in old(claim) && old(claim)[c].tag == tag && old(claim)[c].version in version && version[old(claim)[c].version] == Version(file, true)
      ensures !removed ==> curation == old(curation) && claim == old(claim)
      ensures removed && (old(Claimed(file, tag)) || Says(old(curation), file, tag, Confirmed)) ==>
        curation == old(curation)[(file, tag) := Curation(Rejected, user)] && NoClaim(version, claim, file, tag)
        && (forall c :: c in claim <==> c in old(claim) && !ClaimsOn(version, old(claim), c, file, tag))
      ensures removed && !old(Claimed(file, tag)) && !Says(old(curation), file, tag, Confirmed) ==>
        curation == old(curation) - {(file, tag)} && claim == old(claim)
      ensures forall c :: c in claim ==> c in old(claim) && claim[c] == old(claim)[c]
    {
      var claimed := Claimed(file, tag);
      if !Positive(curation, file, tag) && !claimed {
        return false;
      }
      if claimed || Says(curation, file, tag, Confirmed) {
        curation := curation[(file, tag) := Curation(Rejected, user)];
        DiscardClaims(file, tag);
      } else {
        curation := curation - {(file, tag)};
      }
      return true;
    }

    method DiscardClaims(file: nat, tag: nat)
      modifies this`claim
      ensures forall c :: c in claim <==> c in old(claim) && !ClaimsOn(version, old(claim), c, file, tag)
      ensures forall c :: c in claim ==> claim[c] == old(claim)[c]
    {
      claim := map c | c in claim && !ClaimsOn(version, claim, c, file, tag) :: claim[c];
    }

    // ---------------------------------------------------------------- machines

    /** The tag a word means, quarantined if nothing fits, and none at all for a refused word. */
    method TagFor(word: string) returns (tag: Option<nat>)
      requires Valid()
      modifies this`status, this`named, this`nextTag
      ensures Valid()
      ensures word in old(named) ==> status == old(status) && named == old(named)
      ensures word in old(named) ==> tag == if status[named[word]] == Refused then None else Some(named[word])
      ensures word !in old(named) ==> tag == Some(old(nextTag)) && old(nextTag) !in old(status)
      ensures word !in old(named) ==>
        status == old(status)[old(nextTag) := Suggested] && named == old(named)[word := old(nextTag)]
    {
      if word in named {
        return if status[named[word]] == Refused then None else Some(named[word]);
      }
      tag := Some(nextTag);
      status := status[nextTag := Suggested];
      named := named[word := nextTag];
      nextTag := nextTag + 1;
    }

    /** One label: mapped to a tag, and written unless the word or the file refuses it, or the run said it before. */
    method ApplyClaim(file: nat, v: nat, r: nat, generation: nat, word: string, confidence: Option<int>)
      returns (wrote: bool)
      requires Valid() && v in version && version[v].file == file && r in run && run[r].version == v
      modifies this`status, this`named, this`nextTag, this`claim, this`nextClaim
      ensures Valid()
      ensures !wrote ==> claim == old(claim)
      ensures Learned(old(named), old(status), named, status, word) && word in named && named[word] in status
      ensures wrote <==> !Heard(curation, status, named, old(claim), file, v, r, word)
      ensures wrote ==> old(nextClaim) !in old(claim) && word in named
      ensures wrote ==> claim == old(claim)[old(nextClaim) := Claim(v, r, named[word], generation, confidence)]
      ensures word in named
        && (wrote <==> status[named[word]] != Refused && !Says(curation, file, named[word], Rejected) && !AlreadyClaimed(old(claim), v, named[word], r))
    {
      var target := TagFor(word);
      if target.Some? && !Says(curation, file, target.value, Rejected) && !AlreadyClaimed(claim, v, target.value, r) {
        claim := claim[nextClaim := Claim(v, r, target.value, generation, confidence)];
        nextClaim := nextClaim + 1;
        return true;
      }
      return false;
    }

    method ApplyLabel(file: nat, v: nat, r: nat, generation: nat, one: Label) returns (wrote: bool)
      requires Valid() && v in version && version[v].file == file && r in run && run[r].version == v
      modifies this`status, this`named, this`nextTag, this`claim, this`nextClaim
      ensures Valid() && Learned(old(named), old(status), named, status, one.0)
      ensures Said(curation, named, status, old(claim), claim, file, v, r, generation, one, old(nextClaim), wrote)
      ensures forall c :: c in old(claim) ==> c in claim && claim[c] == old(claim)[c]
      ensures |claim| == |old(claim)| + if wrote then 1 else 0
    {
      hide Clean, Referring, Heard, Learned;
      wrote := ApplyClaim(file, v, r, generation, one.0, one.1);
      if wrote {
        OneMore(old(claim), claim, old(nextClaim));
      }
    }

    /** What one run claims about a version. Whoever said no on this file is not argued with. */
    method ApplyClaims(file: nat, v: nat, r: nat, generation: nat, labels: seq<(string, Option<int>)>)
      returns (written: nat)
      requires Valid() && v in version && version[v].file == file && r in run && run[r].version == v
      modifies this`status, this`named, this`nextTag, this`claim, this`nextClaim
      ensures Valid()
      ensures forall c :: c in old(claim) ==> c in claim && claim[c] == old(claim)[c]
      ensures Taught(old(named), old(status), named, status, labels, |labels|)
      ensures forall n :: 0 <= n < |labels| ==> Heard(curation, status, named, claim, file, v, r, labels[n].0)
      ensures OnlySaid(curation, named, old(claim), claim, file, v, r, generation, labels, |labels|)
      ensures written == |claim| - |old(claim)|
    {
      hide Clean, Referring, SaidSoFar, Learned, Said, Taught, Heard, OnlySaid;
      written := 0;
      ghost var start := View(named, status, claim);
      NothingSaid(curation, start, file, v, r, generation, labels);
      var n := 0;
      while n < |labels|
        invariant 0 <= n <= |labels| && Valid()
        invariant SaidSoFar(curation, start, View(named, status, claim), file, v, r, generation, labels, n, written)
      {
        ghost var before, id := View(named, status, claim), nextClaim;
        var wrote := ApplyLabel(file, v, r, generation, labels[n]);
        ghost var so := written;
        written := if wrote then written + 1 else written;
        OneMoreSaid(curation, start, before, View(named, status, claim), file, v, r, generation, labels, n, id, wrote, so,
          written);
        n := n + 1;
      }
      SaidParts(curation, start, View(named, status, claim), file, v, r, generation, labels, written);
    }

    /** One run's claims copied from another's analysis of the same bytes, then stripped of what this file refused. */
    method Reuse(donor: nat, r: nat, v: nat, extractor: nat, generation: nat) returns (dropped: nat)
      requires Valid() && v in version && r !in run
      modifies this`run, this`claim, this`nextClaim
      ensures Valid() && run == old(run)[r := Run(v, extractor, generation)]
      ensures forall c :: c in old(claim) ==> c in claim && claim[c] == old(claim)[c]
      ensures forall c :: c in claim && c !in old(claim) ==>
        CopyOf(old(claim), claim[c], donor, v, r, generation) && !Says(curation, version[v].file, claim[c].tag, Rejected)
      ensures |claim| + dropped == |old(claim)| + |set d | d in old(claim) && old(claim)[d].run == donor|
      ensures forall d :: d in old(claim) && old(claim)[d].run == donor && !Says(curation, version[v].file, old(claim)[d].tag, Rejected) ==>
        CopiedFrom(old(claim), claim, d)
    {
      hide Clean, Referring, CopiedFrom, CopyOf, Refusing, Says;
      ghost var before := claim;
      FreshRun(version, run, claim, r);
      CopyClaims(donor, r, v, extractor, generation);
      ghost var copied := claim;
      dropped := DropRejectedClaims(r);
      ReuseClean(curation, version, before, copied, claim, r, v, donor, generation);
      FewerRefer(version, run, copied, claim);
    }

    method CopyClaims(donor: nat, r: nat, v: nat, extractor: nat, generation: nat)
      requires Referring(version, run, claim) && (forall c :: c in claim ==> c < nextClaim) && v in version && r !in run
      modifies this`run, this`claim, this`nextClaim
      ensures run == old(run)[r := Run(v, extractor, generation)]
      ensures Referring(version, run, claim) && forall c :: c in claim ==> c < nextClaim
      ensures forall c :: c in old(claim) ==> c in claim && claim[c] == old(claim)[c]
      ensures forall c :: c in claim && c !in old(claim) ==> CopyOf(old(claim), claim[c], donor, v, r, generation)
      ensures |claim| == |old(claim)| + |set d | d in old(claim) && old(claim)[d].run == donor|
      ensures forall d :: d in old(claim) && old(claim)[d].run == donor ==> CopiedFrom(old(claim), claim, d)
    {
      hide CopiedFrom, Referring, CopiedBut;
      ghost var before := claim;
      RunRefers(version, run, claim, r, Run(v, extractor, generation));
      run := run[r := Run(v, extractor, generation)];
      var left := set d | d in claim && claim[d].run == donor;
      NothingCopied(before, donor, left, v, r, generation);
      while left != {}
        invariant run == old(run)[r := Run(v, extractor, generation)] && Referring(version, run, claim)
        invariant CopiedBut(before, claim, donor, left, v, r, generation) && forall c :: c in claim ==> c < nextClaim
        decreases left
      {
        var d :| d in left;
        ghost var so := claim;
        LeftIn(before, claim, donor, left, v, r, generation, d);
        claim := claim[nextClaim := claim[d].(version := v, run := r, generation := generation)];
        CopiedOne(before, so, claim, donor, left, v, r, generation, nextClaim, d);
        ClaimRefers(version, run, so, nextClaim, claim[nextClaim]);
        left := left - {d};
        nextClaim := nextClaim + 1;
      }
      AllCopied(before, claim, donor, v, r, generation);
    }

    method DropRejectedClaims(r: nat) returns (dropped: nat)
      modifies this`claim
      ensures forall c :: c in claim <==>
        c in old(claim) && !(old(claim)[c].run == r && Refusing(curation, version, old(claim), c))
      ensures forall c :: c in claim ==> claim[c] == old(claim)[c]
      ensures dropped == |old(claim)| - |claim|
    {
      var gone := set c | c in claim && claim[c].run == r && Refusing(curation, version, claim, c);
      dropped := |gone|;
      Without(claim, gone);
      claim := claim - gone;
    }

    /** A re-run's own claims go before its new ones arrive. */
    method DiscardRun(r: nat)
      requires Valid()
      modifies this`claim
      ensures Valid() && (forall c :: c in claim <==> c in old(claim) && old(claim)[c].run != r)
      ensures forall c :: c in claim ==> claim[c] == old(claim)[c]
    {
      claim := map c | c in claim && claim[c].run != r :: claim[c];
    }

    /** A newer version of the file takes over as the current one. */
    method AddVersion(v: nat, file: nat)
      requires Valid() && v !in version
      modifies this`version
      ensures Valid() && v in version && version[v] == Version(file, true)
      ensures forall w :: w in old(version) ==> w in version && version[w] == old(version)[w].(current := old(version)[w].current && old(version)[w].file != file)
      ensures forall w :: w in version ==> w == v || w in old(version)
    {
      version := map w | w in version :: version[w].(current := version[w].current && version[w].file != file);
      version := version[v := Version(file, true)];
    }

    // ---------------------------------------------------------------- the vocabulary

    /** Fold one tag into another, file by file: the stronger statement stays, with its author. */
    method MergeFileTags(source: nat, target: nat)
      requires source != target
      modifies this`curation
      ensures CurationMerged(old(curation), curation, source, target)
    {
      hide FileMerged, FileKept;
      var left := set pair: (nat, nat) | pair in curation && pair.1 == source :: pair.0;
      ghost var was := curation;
      NothingMerged(was, source, target, left);
      while left != {}
        invariant MergedBut(was, curation, source, target, left)
        decreases left
      {
        var f: nat :| f in left;
        ghost var before := curation;
        KeptRow(was, curation, source, target, left, f);
        var said := curation[(f, source)];
        if (f, target) !in curation || Rank(said.provenance) > Rank(curation[(f, target)].provenance) {
          curation := curation[(f, target) := said];
        }
        curation := curation - {(f, source)};
        MergedOne(was, before, curation, source, target, left, f);
        left := left - {f};
      }
      AllMerged(was, curation, source, target);
    }

    /** Machine claims are re-pointed; a run that claimed both words keeps one. */
    method MergeClaims(source: nat, target: nat)
      requires source != target
      modifies this`claim
      ensures ClaimsMerged(old(claim), claim, source, target)
    {
      claim := map c | c in claim && !(claim[c].tag == source
        && AlreadyClaimed(claim, claim[c].version, target, claim[c].run))
        :: if claim[c].tag == source then claim[c].(tag := target) else claim[c];
    }

    /**
     Afterwards no rejected tag is claimed exactly when no file's combined rejection met a claim under the other word.
    */
    method Merge(source: nat, target: nat) returns (answer: Answer)
      requires Valid() && source != target
      modifies this`curation, this`claim, this`named, this`status
      ensures answer == if source in old(status) && target in old(status) then Done else UnknownTag
      ensures answer == Done ==>
        CurationMerged(old(curation), curation, source, target) && ClaimsMerged(old(claim), claim, source, target)
      ensures answer == Done ==> (Valid() <==> MergeIsClean(old(curation), version, old(claim), source, target))
      ensures answer != Done ==> Valid() && curation == old(curation) && claim == old(claim)
      ensures answer != Done ==> named == old(named) && status == old(status)
      ensures answer == Done ==> status == old(status) - {source}
      ensures answer == Done ==> forall n :: n in named <==> n in old(named)
      ensures answer == Done ==>
        forall n :: n in named ==> named[n] == if old(named)[n] == source then target else old(named)[n]
    {
      hide Clean, CurationMerged, ClaimsMerged, MergeIsClean, Referring;
      if source !in status || target !in status {
        return UnknownTag;
      }
      ghost var said, claimed := curation, claim;
      MergeFileTags(source, target);
      MergeClaims(source, target);
      MergedClean(said, curation, version, claimed, claim, source, target);
      MergedRefers(version, run, claimed, claim, source, target);
      named := map n | n in named :: if named[n] == source then target else named[n];
      status := status - {source};
      return Done;
    }

    // ---------------------------------------------------------------- reading

    /** Every tag on one file, each once, with who says so and the surest claim behind it. */
    method TagsOfFile(file: nat) returns (applied: seq<Applied>)
      ensures forall i, j :: 0 <= i < j < |applied| ==> applied[i].tag != applied[j].tag
      ensures forall t: nat :: (exists a :: a in applied && a.tag == t) <==>
        Carries(curation, version, run, claim, file, t)
      ensures forall a :: a in applied ==> Best(version, run, claim, file, a.tag, a.source)
      ensures forall a :: a in applied ==>
        a.curation == if (file, a.tag) in curation then Some(curation[(file, a.tag)]) else None
    {
      hide Counts, Surer;
      var claims := ClaimsOf(file);
      var tags := (set pair: (nat, nat) | pair in curation && pair.0 == file :: pair.1) + claims.Keys;
      applied := [];
      var left := tags;
      while left != {}
        invariant left <= tags
        invariant forall i, j :: 0 <= i < j < |applied| ==> applied[i].tag != applied[j].tag
        invariant forall a :: a in applied ==> a.tag in tags - left && !Says(curation, file, a.tag, Rejected)
        invariant forall a :: a in applied ==> a.source == (if a.tag in claims then Some(claims[a.tag]) else None)
        invariant forall a :: a in applied ==>
          a.curation == (if (file, a.tag) in curation then Some(curation[(file, a.tag)]) else None)
        invariant forall t :: t in tags - left && !Says(curation, file, t, Rejected) ==>
          exists a :: a in applied && a.tag == t
        decreases left
      {
        var tag :| tag in left;
        left := left - {tag};
        if Says(curation, file, tag, Rejected) {
          continue;
        }
        var one := Applied(tag, if (file, tag) in curation then Some(curation[(file, tag)])
          else None, if tag in claims then Some(claims[tag]) else None);
        ghost var before := applied;
        applied := applied + [one];
        assert one in applied && forall a :: a in before ==> a in applied;
      }
      forall t: nat
        ensures Carries(curation, version, run, claim, file, t) <==> t in tags && !Says(curation, file, t, Rejected)
      {
        assert (file, t) in curation ==> t in tags;
      }
    }

    /** The surest counting claim per tag: the last row of the ordered read wins. */
    method ClaimsOf(file: nat) returns (best: map<nat, nat>)
      ensures forall t :: t in best ==> Best(version, run, claim, file, t, Some(best[t]))
      ensures forall t :: t !in best ==> Best(version, run, claim, file, t, None)
    {
      best := map[];
      var left := set c | c in claim && Counts(version, run, claim, c, file);
      while left != {}
        invariant forall c :: c in left ==> Counts(version, run, claim, c, file)
        invariant forall t :: t in best ==> Counts(version, run, claim, best[t], file) && claim[best[t]].tag == t
        invariant forall c :: Counts(version, run, claim, c, file) && c !in left ==>
          claim[c].tag in best && Surer(claim, best[claim[c].tag], c)
        decreases left
      {
        var c :| c in left;
        left := left - {c};
        var t := claim[c].tag;
        if t !in best || Surer(claim, c, best[t]) {
          best := best[t := c];
        }
      }
    }
  }

  lemma Without(claim: Claims, gone: set<nat>)
    requires gone <= claim.Keys
    ensures |claim - gone| == |claim| - |gone|
  {
    assert (claim - gone).Keys == claim.Keys - gone;
    assert |claim.Keys - gone| == |claim.Keys| - |gone|;
    assert |(claim - gone).Keys| == |claim - gone| && |claim.Keys| == |claim|;
  }

  /** Some claim of the donor, in the name of this run and of this generation. */
  ghost predicate CopyOf(before: Claims, c: Claim, donor: nat, v: nat, r: nat, generation: nat) {
    exists d :: d in before && before[d].run == donor && c == Claim(v, r, before[d].tag, generation, before[d].confidence)
  }

  /** Another run's claim now stands for this run too. */
  ghost predicate CopiedFrom(before: Claims, claim: Claims, d: nat)
    requires d in before
  {
    exists c :: c in claim && c !in before && claim[c].tag == before[d].tag
      && claim[c].confidence == before[d].confidence
  }

  lemma RunRefers(version: map<nat, Version>, run: map<nat, Run>, claim: Claims, r: nat, row: Run)
    requires Referring(version, run, claim) && r !in run
    ensures Referring(version, run[r := row], claim)
  {
  }

  lemma ClaimRefers(version: map<nat, Version>, run: map<nat, Run>, claim: Claims, c: nat, row: Claim)
    requires Referring(version, run, claim) && row.version in version && row.run in run
    requires run[row.run].version == row.version
    ensures Referring(version, run, claim[c := row])
  {
  }

  lemma CopiedOnward(before: Claims, claim: Claims, claim': Claims, fresh': nat, d: nat)
    requires d in before && fresh' !in claim && (forall c :: c in before ==> c in claim) && d in claim
    requires claim[d] == before[d]
    requires fresh' in claim' && claim'[fresh'].tag == claim[d].tag && claim'[fresh'].confidence == claim[d].confidence
    requires forall c :: c in claim ==> c in claim' && claim'[c] == claim[c]
    ensures CopiedFrom(before, claim', d)
    ensures forall e :: e in before && CopiedFrom(before, claim, e) ==> CopiedFrom(before, claim', e)
  {
    assert fresh' !in before;
    forall e | e in before && CopiedFrom(before, claim, e) ensures CopiedFrom(before, claim', e) {
      var c :| c in claim && c !in before && claim[c].tag == before[e].tag
        && claim[c].confidence == before[e].confidence;
      assert c in claim';
    }
  }

  /**
   Nothing changed but that claims were added for a version and run, one at least for every claim of the donor not in
   `left`.
  */
  ghost predicate CopiedBut(before: Claims, claim: Claims, donor: nat, left: set<nat>, v: nat, r: nat, generation: nat) {
    (forall c :: c in before ==> c in claim && claim[c] == before[c]) &&
    (forall c :: c in claim && c !in before ==> CopyOf(before, claim[c], donor, v, r, generation)) &&
    (forall d :: d in left ==> d in before && before[d].run == donor) &&
    |claim| + |left| == |before| + |set d | d in before && before[d].run == donor| &&
    forall d :: d in before && before[d].run == donor && d !in left ==> CopiedFrom(before, claim, d)
  }

  lemma NothingCopied(before: Claims, donor: nat, left: set<nat>, v: nat, r: nat, generation: nat)
    requires left == set d | d in before && before[d].run == donor
    ensures CopiedBut(before, before, donor, left, v, r, generation)
  {
  }

  lemma LeftIn(before: Claims, claim: Claims, donor: nat, left: set<nat>, v: nat, r: nat, generation: nat, d: nat)
    requires CopiedBut(before, claim, donor, left, v, r, generation) && d in left
    ensures d in before && d in claim && claim[d] == before[d]
  {
  }

  lemma CopiedOne(before: Claims, claim: Claims, claim': Claims, donor: nat, left: set<nat>, v: nat, r: nat, generation: nat,
                  fresh': nat, d: nat)
    requires CopiedBut(before, claim, donor, left, v, r, generation) && d in left && fresh' !in claim && d in claim
    requires claim[d] == before[d]
    requires fresh' in claim' && claim' == claim[fresh' := claim'[fresh']] && claim'[fresh'].version == v
    requires claim'[fresh'].run == r && claim'[fresh'].generation == generation
    requires claim'[fresh'].tag == claim[d].tag && claim'[fresh'].confidence == claim[d].confidence
    ensures CopiedBut(before, claim', donor, left - {d}, v, r, generation)
  {
    hide CopiedFrom;
    CopiedOnward(before, claim, claim', fresh', d);
    assert CopyOf(before, claim'[fresh'], donor, v, r, generation);
    OneMore(claim, claim', fresh');
  }

  lemma OneMore(claim: Claims, claim': Claims, id: nat)
    requires id !in claim && id in claim' && claim' == claim[id := claim'[id]]
    ensures |claim'| == |claim| + 1
  {
    assert claim'.Keys == claim.Keys + {id} && |claim'.Keys| == |claim'| && |claim.Keys| == |claim|;
  }

  lemma AllCopied(before: Claims, claim: Claims, donor: nat, v: nat, r: nat, generation: nat)
    requires CopiedBut(before, claim, donor, {}, v, r, generation)
    ensures forall c :: c in before ==> c in claim && claim[c] == before[c]
    ensures forall c :: c in claim && c !in before ==> CopyOf(before, claim[c], donor, v, r, generation)
    ensures |claim| == |before| + |set d | d in before && before[d].run == donor|
    ensures forall d :: d in before && before[d].run == donor ==> CopiedFrom(before, claim, d)
  {
  }

  lemma FreshRun(version: map<nat, Version>, run: map<nat, Run>, claim: Claims, r: nat)
    requires Referring(version, run, claim) && r !in run
    ensures forall c :: c in claim ==> claim[c].run != r
  {
  }

  lemma FewerRefer(version: map<nat, Version>, run: map<nat, Run>, was: Claims, now: Claims)
    requires Referring(version, run, was) && forall c :: c in now ==> c in was && now[c] == was[c]
    ensures Referring(version, run, now)
  {
  }

  lemma ReuseClean(curation: Curations, version: map<nat, Version>, before: Claims, copied: Claims, claim: Claims,
                   r: nat, v: nat, donor: nat, generation: nat)
    requires v in version && Clean(curation, version, before) && (forall c :: c in before ==> before[c].run != r)
    requires forall c :: c in before ==> c in copied && copied[c] == before[c]
    requires forall c :: c in copied && c !in before ==> CopyOf(before, copied[c], donor, v, r, generation)
    requires forall c :: c in claim <==> c in copied && !(copied[c].run == r && Refusing(curation, version, copied, c))
    requires forall c :: c in claim ==> claim[c] == copied[c]
    requires forall d :: d in before && before[d].run == donor ==> CopiedFrom(before, copied, d)
    ensures Clean(curation, version, claim) && forall c :: c in before ==> c in claim && claim[c] == before[c]
    ensures forall c :: c in claim && c !in before ==>
      CopyOf(before, claim[c], donor, v, r, generation) && !Says(curation, version[v].file, claim[c].tag, Rejected)
    ensures forall d :: d in before && before[d].run == donor && !Says(curation, version[v].file, before[d].tag, Rejected) ==> CopiedFrom(before, claim, d)
  {
    forall d | d in before && before[d].run == donor && !Says(curation, version[v].file, before[d].tag, Rejected)
      ensures CopiedFrom(before, claim, d)
    {
      var c :| c in copied && c !in before && copied[c].tag == before[d].tag
        && copied[c].confidence == before[d].confidence;
      assert c in claim;
    }
    forall c | c in claim ensures !Refusing(curation, version, claim, c) {
      assert c in before ==> !Refusing(curation, version, before, c);
    }
  }

  // ------------------------------------------------------------------ merging two words

  function At(curation: Curations, file: nat, tag: nat): Option<Curation> {
    if (file, tag) in curation then Some(curation[(file, tag)]) else None
  }

  /** Positive beats negative; between two positives, the one with a machine behind it. */
  function Rank(p: Provenance): nat {
    match p
    case Rejected => 0
    case Manual => 1
    case Confirmed => 2
  }

  function Stronger(source: Option<Curation>, target: Option<Curation>): Option<Curation> {
    match (source, target)
    case (None, _) => target
    case (Some(_), None) => source
    case (Some(a), Some(b)) => if Rank(a.provenance) > Rank(b.provenance) then source else target
  }

  /** A confirmation on either word stands, else a manual one; a rejection stands only where nobody said yes. */
  lemma MergedSays(was: Curations, now: Curations, source: nat, target: nat, f: nat)
    requires CurationMerged(was, now, source, target) && source != target
    ensures Says(now, f, target, Confirmed) <==> Says(was, f, source, Confirmed) || Says(was, f, target, Confirmed)
    ensures Says(now, f, target, Manual) <==>
      (Says(was, f, source, Manual) || Says(was, f, target, Manual)) && !Says(now, f, target, Confirmed)
    ensures Says(now, f, target, Rejected) <==>
      (Says(was, f, source, Rejected) || Says(was, f, target, Rejected)) && !Positive(was, f, source) && !Positive(was, f, target)
    ensures (f, source) !in now
    ensures (f, target) in now ==>
      ((f, target) in was && now[(f, target)] == was[(f, target)]) ||
      ((f, source) in was && now[(f, target)] == was[(f, source)])
    ensures (f, target) in was && ((f, source) !in was || was[(f, source)].provenance == was[(f, target)].provenance)
      ==> (f, target) in now && now[(f, target)] == was[(f, target)]
  {
    assert FileMerged(was, now, source, target, f);
  }

  predicate FileMerged(was: Curations, now: Curations, source: nat, target: nat, file: nat) {
    At(now, file, source) == None && At(now, file, target) == Stronger(At(was, file, source), At(was, file, target))
  }

  predicate FileKept(was: Curations, now: Curations, source: nat, target: nat, file: nat) {
    At(now, file, source) == At(was, file, source) && At(now, file, target) == At(was, file, target)
  }

  ghost predicate CurationMerged(was: Curations, now: Curations, source: nat, target: nat) {
    (forall f: nat :: FileMerged(was, now, source, target, f)) &&
    forall f: nat, t: nat :: t != source && t != target ==> At(now, f, t) == At(was, f, t)
  }

  /** The file tags of all files but those in `left` were merged. */
  ghost predicate MergedBut(was: Curations, now: Curations, source: nat, target: nat, left: set<nat>) {
    (forall f: nat :: f in left ==> (f, source) in was) &&
    (forall f: nat :: (f, source) in was && f !in left ==> FileMerged(was, now, source, target, f)) &&
    (forall f: nat :: (f, source) !in was || f in left ==> FileKept(was, now, source, target, f)) &&
    forall f: nat, t: nat :: t != source && t != target ==> At(now, f, t) == At(was, f, t)
  }

  lemma NothingMerged(was: Curations, source: nat, target: nat, left: set<nat>)
    requires left == set pair: (nat, nat) | pair in was && pair.1 == source :: pair.0
    ensures MergedBut(was, was, source, target, left)
  {
    forall f: nat ensures f in left <==> (f, source) in was {
      assert (f, source) in was ==> (f, source).0 == f;
    }
  }

  lemma KeptRow(was: Curations, now: Curations, source: nat, target: nat, left: set<nat>, f: nat)
    requires MergedBut(was, now, source, target, left) && f in left
    ensures (f, source) in now && now[(f, source)] == was[(f, source)]
  {
    assert FileKept(was, now, source, target, f);
  }

  lemma MergedOne(was: Curations, before: Curations, now: Curations, source: nat, target: nat, left: set<nat>, f: nat)
    requires MergedBut(was, before, source, target, left) && f in left && source != target && (f, source) in before
    requires now == (if (f, target) !in before ||
      Rank(before[(f, source)].provenance) > Rank(before[(f, target)].provenance)
                     then before[(f, target) := before[(f, source)]] else before) - {(f, source)}
    ensures MergedBut(was, now, source, target, left - {f})
  {
    assert FileKept(was, before, source, target, f);
    forall g: nat, t: nat | g != f || (t != source && t != target) ensures At(now, g, t) == At(before, g, t) {
    }
    forall g: nat | g != f
      ensures FileMerged(was, now, source, target, g) <==> FileMerged(was, before, source, target, g)
    {
    }
    forall g: nat | g != f ensures FileKept(was, now, source, target, g) <==> FileKept(was, before, source, target, g) {
    }
  }

  lemma AllMerged(was: Curations, now: Curations, source: nat, target: nat)
    requires MergedBut(was, now, source, target, {})
    ensures CurationMerged(was, now, source, target)
  {
    forall f: nat ensures FileMerged(was, now, source, target, f) {
      assert (f, source) !in was ==> FileKept(was, now, source, target, f);
    }
  }

  ghost predicate ClaimsMerged(was: Claims, now: Claims, source: nat, target: nat) {
    (forall c :: c in now <==>
      c in was && !(was[c].tag == source && AlreadyClaimed(was, was[c].version, target, was[c].run))) &&
    forall c :: c in now ==> now[c] == if was[c].tag == source then was[c].(tag := target) else was[c]
  }

  /** One word is rejected on the file, nobody spoke about the other, and a machine claims that other one. */
  predicate Clashes(curation: Curations, version: map<nat, Version>, claim: Claims, file: nat, no: nat, other: nat) {
    Says(curation, file, no, Rejected) && (file, other) !in curation
    && exists c :: c in claim && ClaimsOn(version, claim, c, file, other)
  }

  ghost predicate MergeIsClean(curation: Curations, version: map<nat, Version>, claim: Claims, source: nat,
                               target: nat) {
    forall f: nat :: !Clashes(curation, version, claim, f, target, source)
      && !Clashes(curation, version, claim, f, source, target)
  }

  /** A claim on either word is a claim on the merged one afterwards. */
  lemma MergedClaimed(version: map<nat, Version>, was: Claims, now: Claims, source: nat, target: nat, f: nat)
    requires ClaimsMerged(was, now, source, target) && source != target
    ensures NoClaim(version, now, f, target) <==> NoClaim(version, was, f, source) && NoClaim(version, was, f, target)
    ensures NoClaim(version, now, f, source)
  {
    if c :| ClaimsOn(version, was, c, f, target) {
      assert ClaimsOn(version, now, c, f, target);
    } else if c :| ClaimsOn(version, was, c, f, source) {
      if AlreadyClaimed(was, was[c].version, target, was[c].run) {
        var d :| d in was && was[d].version == was[c].version && was[d].tag == target && was[d].run == was[c].run;
        assert ClaimsOn(version, now, d, f, target);
      } else {
        assert ClaimsOn(version, now, c, f, target);
      }
    } else {
      forall c ensures !ClaimsOn(version, now, c, f, target) {
        assert !ClaimsOn(version, was, c, f, target) && !ClaimsOn(version, was, c, f, source);
      }
    }
  }

  lemma MergedClean(said: Curations, says: Curations, version: map<nat, Version>, was: Claims, now: Claims, source: nat,
                    target: nat)
    requires source != target && CurationMerged(said, says, source, target) && ClaimsMerged(was, now, source, target)
    requires Clean(said, version, was)
    ensures Clean(says, version, now) <==> MergeIsClean(said, version, was, source, target)
  {
    hide Clean, ClaimsMerged, CurationMerged;
    CleanPairs(said, version, was);
    CleanPairs(says, version, now);
    forall f: nat, t: nat
      ensures (Says(says, f, t, Rejected) ==> NoClaim(version, now, f, t)) <==>
        (t != target || (!Clashes(said, version, was, f, target, source) && !Clashes(said, version, was, f, source, target)))
    {
      if t == target || t == source {
        MergedPair(said, says, version, was, now, source, target, f);
      } else {
        MergedElsewhere(said, says, version, was, now, source, target, f, t);
      }
    }
    if Clean(says, version, now) {
      forall f: nat
        ensures !Clashes(said, version, was, f, target, source) && !Clashes(said, version, was, f, source, target)
      {
        assert Says(says, f, target, Rejected) ==> NoClaim(version, now, f, target);
      }
    }
  }

  /** A person rejected one word on a file, a machine claimed the other: after the merge the rejected tag is claimed. */
  lemma MergeOverrules(file: nat, v: nat, c: nat, user: nat, run: nat, source: nat, target: nat, says: Curations,
                       now: Claims)
    requires source != target
    requires CurationMerged(map[(file, target) := Curation(Rejected, user)], says, source, target)
    requires ClaimsMerged(map[c := Claim(v, run, source, 0, None)], now, source, target)
    ensures Clean(map[(file, target) := Curation(Rejected, user)], map[v := Version(file, true)], map[c := Claim(v, run, source, 0, None)])
    ensures Says(says, file, target, Rejected) && ClaimsOn(map[v := Version(file, true)], now, c, file, target)
    ensures !Clean(says, map[v := Version(file, true)], now)
  {
    var said: Curations := map[(file, target) := Curation(Rejected, user)];
    assert FileMerged(said, says, source, target, file);
    assert At(says, file, target) == Some(Curation(Rejected, user));
    assert Refusing(says, map[v := Version(file, true)], now, c);
  }

  lemma MergedRefers(version: map<nat, Version>, run: map<nat, Run>, was: Claims, now: Claims, source: nat, target: nat)
    requires ClaimsMerged(was, now, source, target) && Referring(version, run, was)
    ensures Referring(version, run, now) && forall c :: c in now ==> c in was
  {
  }

  lemma MergedPair(said: Curations, says: Curations, version: map<nat, Version>, was: Claims, now: Claims, source: nat,
                   target: nat, f: nat)
    requires source != target && CurationMerged(said, says, source, target) && ClaimsMerged(was, now, source, target)
    requires forall t: nat :: Says(said, f, t, Rejected) ==> NoClaim(version, was, f, t)
    ensures (Says(says, f, target, Rejected) ==> NoClaim(version, now, f, target)) <==>
      !Clashes(said, version, was, f, target, source) && !Clashes(said, version, was, f, source, target)
    ensures !Says(says, f, source, Rejected)
  {
    hide ClaimsMerged;
    MergedClaimed(version, was, now, source, target, f);
    assert FileMerged(said, says, source, target, f);
    ClashIs(said, version, was, f, target, source);
    ClashIs(said, version, was, f, source, target);
  }

  lemma ClashIs(curation: Curations, version: map<nat, Version>, claim: Claims, f: nat, no: nat, other: nat)
    ensures Clashes(curation, version, claim, f, no, other) <==>
      Says(curation, f, no, Rejected) && (f, other) !in curation && !NoClaim(version, claim, f, other)
  {
    if c :| ClaimsOn(version, claim, c, f, other) {
      assert c in claim;
    }
  }

  lemma MergedElsewhere(
    said: Curations, says: Curations, version: map<nat, Version>, was: Claims, now: Claims, source: nat, target: nat,
      f: nat, t: nat)
    requires t != source && t != target && CurationMerged(said, says, source, target)
    requires ClaimsMerged(was, now, source, target)
    requires Says(said, f, t, Rejected) ==> NoClaim(version, was, f, t)
    ensures Says(says, f, t, Rejected) ==> NoClaim(version, now, f, t)
  {
    assert At(says, f, t) == At(said, f, t);
    if Says(says, f, t, Rejected) {
      forall c ensures !ClaimsOn(version, now, c, f, t) {
        assert !ClaimsOn(version, was, c, f, t);
      }
    }
  }
}
