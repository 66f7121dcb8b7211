/**
 Ownership tags: when a resource is this CR's, and when it may be re-tagged.
 */
module Ownership {
  import opened Ledger

  type Tags = map<string, string>

  const OWNER_TAG := "cloudctl.io/owner"
  const OWNER_UID_TAG := "cloudctl.io/owner-uid"

  datatype CR = CR(namespace: string, name: string, uid: string)

  // A missing tag reads as the empty string.
  function Get(tags: Tags, key: string): string {
    if key in tags then tags[key] else ""
  }

  function OwnerTagValue(namespace: string, name: string): string {
    namespace + "/" + name
  }

  function OwnerOf(cr: CR): string {
    OwnerTagValue(cr.namespace, cr.name)
  }

  function OwnerTags(cr: CR): Tags {
    map[OWNER_TAG := OwnerOf(cr), OWNER_UID_TAG := cr.uid]
  }

  predicate IsOwnedBy(tags: Tags, cr: CR) {
    Get(tags, OWNER_TAG) == OwnerOf(cr) && Get(tags, OWNER_UID_TAG) == cr.uid
  }

  // The uid of an earlier incarnation of this very CR, if the tags carry one.
  function StaleUID(tags: Tags, cr: CR): Option<string> {
    if Get(tags, OWNER_TAG) != OwnerOf(cr) then None
    else if OWNER_UID_TAG !in tags || tags[OWNER_UID_TAG] == cr.uid then None
    else Some(tags[OWNER_UID_TAG])
  }

  // `from` is the uid the CR was told to take over from, empty when it was not.
  predicate MayTransferFrom(from: string, staleUID: string) {
    from != "" && from == staleUID
  }

  datatype Refusal = OwnedByAnotherCR(owner: string) | PreviousIncarnation(uid: string) | AdoptRequired

  datatype Verdict = Owned | Refuse(why: Refusal) | Retag(transferred: bool)

  // What to do with a resource that is not this incarnation's.
  function CheckExistingOwnership(tags: Tags, cr: CR, adopt: bool, from: string): Verdict {
    if OWNER_TAG in tags && tags[OWNER_TAG] != OwnerOf(cr) then Refuse(OwnedByAnotherCR(tags[OWNER_TAG]))
    else
      match StaleUID(tags, cr)
      case Some(uid) => if MayTransferFrom(from, uid) then Retag(true) else Refuse(PreviousIncarnation(uid))
      case None => if adopt then Retag(false) else Refuse(AdoptRequired)
  }

  // The ladder as a table goes through it.
  function TableLadder(tags: Tags, cr: CR, adopt: bool, from: string): Verdict {
    if IsOwnedBy(tags, cr) then Owned else CheckExistingOwnership(tags, cr, adopt, from)
  }

  // The ladder written out in adoptKey, with its early returns.
  method KeyLadder(tags: Tags, cr: CR, adopt: bool, from: string) returns (v: Verdict)
    ensures v == TableLadder(tags, cr, adopt, from)
  {
    if IsOwnedBy(tags, cr) {
      return Owned;
    }
    if OWNER_TAG in tags && tags[OWNER_TAG] != OwnerOf(cr) {
      return Refuse(OwnedByAnotherCR(tags[OWNER_TAG]));
    }
    var transferred := false;
    var stale := StaleUID(tags, cr);
    if stale.Some? {
      if !MayTransferFrom(from, stale.value) {
        return Refuse(PreviousIncarnation(stale.value));
      }
      transferred := true;
    }
    if !transferred && !adopt {
      return Refuse(AdoptRequired);
    }
    return Retag(transferred);
  }

  // The ladder written out in ensureInstanceOwnership, all under one negated test.
  method InstanceLadder(tags: Tags, cr: CR, adopt: bool, from: string) returns (v: Verdict)
    ensures v == TableLadder(tags, cr, adopt, from)
  {
    v := Owned;
    if !IsOwnedBy(tags, cr) {
      if OWNER_TAG in tags && tags[OWNER_TAG] != OwnerOf(cr) {
        return Refuse(OwnedByAnotherCR(tags[OWNER_TAG]));
      }
      var transferred := false;
      var stale := StaleUID(tags, cr);
      if stale.Some? {
        if !MayTransferFrom(from, stale.value) {
          return Refuse(PreviousIncarnation(stale.value));
        }
        transferred := true;
      }
      if !transferred && !adopt {
        return Refuse(AdoptRequired);
      }
      v := Retag(transferred);
    }
  }

  // The ladder of findOrCreateSecurityGroup, which words the last two tests
  // differently.
  function GroupLadder(tags: Tags, cr: CR, adopt: bool, from: string): Verdict {
    if IsOwnedBy(tags, cr) then Owned
    else if OWNER_TAG in tags && tags[OWNER_TAG] != OwnerOf(cr) then Refuse(OwnedByAnotherCR(tags[OWNER_TAG]))
    else
      var stale := StaleUID(tags, cr);
      if !adopt && (stale.None? || !MayTransferFrom(from, stale.value)) then
        if stale.Some? then Refuse(PreviousIncarnation(stale.value)) else Refuse(AdoptRequired)
      else Retag(stale.Some?)
  }

  // The group ladder is more permissive than the others in exactly one family:
  // with adopt set, a group left by an earlier incarnation is taken over
  // although the CR was not told to take over from that uid.
  lemma GroupLadderDiffers(tags: Tags, cr: CR, adopt: bool, from: string)
    ensures GroupLadder(tags, cr, adopt, from) != TableLadder(tags, cr, adopt, from) <==>
            adopt && StaleUID(tags, cr).Some? && !MayTransferFrom(from, StaleUID(tags, cr).value)
  {
  }

  // `/` cannot occur in a namespace, so the owner tag tells CRs apart.
  lemma OwnerTagInjective(a: CR, b: CR)
    requires '/' !in a.namespace && '/' !in b.namespace
    requires OwnerOf(a) == OwnerOf(b)
    ensures a.namespace == b.namespace && a.name == b.name
  {
    var va, vb := OwnerOf(a), OwnerOf(b);
    var i, j := |a.namespace|, |b.namespace|;
    assert va[i] == '/' && vb[j] == '/';
    assert forall k :: 0 <= k < i ==> va[k] == a.namespace[k];
    assert forall k :: 0 <= k < j ==> vb[k] == b.namespace[k];
    assert i == j;
    assert va[..i] == a.namespace && vb[..j] == b.namespace;
    assert va[i + 1..] == a.name && vb[j + 1..] == b.name;
  }

  // ------------------------------------------------------------------ titles

  // Whom the tags of a resource name. A resource that is not there has no owner.
  datatype Title = Nobody | Held(owner: string, uid: Option<string>)

  function TitleOf(tags: Tags): Title {
    if OWNER_TAG !in tags then Nobody
    else Held(tags[OWNER_TAG], if OWNER_UID_TAG in tags then Some(tags[OWNER_UID_TAG]) else None)
  }

  // The titles of all resources of one kind, by ARN.
  type Titles = string -> Title

  function Mine(cr: CR): Title {
    Held(OwnerOf(cr), Some(cr.uid))
  }

  // What a CR may change the tags of: what nobody holds, what it holds itself,
  // and what an incarnation it was told to take over from holds.
  predicate MayTouch(cr: CR, from: string, t: Title) {
    t.Nobody? ||
    (t.owner == OwnerOf(cr) && (t.uid.None? || t.uid.value == cr.uid || (from != "" && t.uid.value == from)))
  }

  predicate Honours(cr: CR, from: string, t: Title, t': Title) {
    t' == t || (MayTouch(cr, from, t) && (t'.Nobody? || t' == Mine(cr)))
  }

  // Every resource of a service keeps its title, or had one the CR may change.
  ghost predicate HonoursAll(cr: CR, from: string, before: Titles, after: Titles) {
    forall x :: Honours(cr, from, before(x), after(x))
  }

  lemma HonoursInTurn(cr: CR, from: string, a: Titles, b: Titles, c: Titles)
    requires HonoursAll(cr, from, a, b) && HonoursAll(cr, from, b, c)
    ensures HonoursAll(cr, from, a, c)
  {
    forall x ensures Honours(cr, from, a(x), c(x)) {
      assert Honours(cr, from, a(x), b(x)) && Honours(cr, from, b(x), c(x));
    }
  }

  // A change at one resource, of a title the CR may change.
  lemma HonoursAt(cr: CR, from: string, a: Titles, b: Titles, arn: string)
    requires forall x :: x != arn ==> b(x) == a(x)
    requires Honours(cr, from, a(arn), b(arn))
    ensures HonoursAll(cr, from, a, b)
  {
    forall x ensures Honours(cr, from, a(x), b(x)) {
      if x != arn {
        assert b(x) == a(x);
      }
    }
  }

  lemma OwnedMayTouch(tags: Tags, cr: CR, from: string)
    requires IsOwnedBy(tags, cr)
    ensures MayTouch(cr, from, TitleOf(tags))
  {
    assert OwnerOf(cr)[|cr.namespace|] == '/';
  }

  // The ladder lets nothing be tagged that the CR may not touch.
  lemma LadderMayTouch(tags: Tags, cr: CR, adopt: bool, from: string)
    requires !TableLadder(tags, cr, adopt, from).Refuse?
    ensures MayTouch(cr, from, TitleOf(tags))
  {
    if IsOwnedBy(tags, cr) {
      OwnedMayTouch(tags, cr, from);
    }
  }

  // An incarnation of this CR that it was told to take over from holds it.
  predicate Inherited(cr: CR, from: string, tags: Tags) {
    from != "" && TitleOf(tags) == Held(OwnerOf(cr), Some(from))
  }

  // Nobody holds it, or this CR does under no uid.
  predicate Unclaimed(cr: CR, tags: Tags) {
    TitleOf(tags) in {Nobody, Held(OwnerOf(cr), None)}
  }

  // The ladder in terms of titles: what is the CR's is its own; anything else is
  // taken over exactly if it was inherited, or is unclaimed and to be adopted.
  lemma LadderMeans(tags: Tags, cr: CR, adopt: bool, from: string)
    ensures var v := TableLadder(tags, cr, adopt, from);
      && (v.Owned? <==> IsOwnedBy(tags, cr))
      && (v.Retag? <==> !IsOwnedBy(tags, cr) && (Inherited(cr, from, tags) || (adopt && Unclaimed(cr, tags))))
    ensures StaleUID(tags, cr).Some? && MayTransferFrom(from, StaleUID(tags, cr).value) <==>
      !(OWNER_UID_TAG in tags && tags[OWNER_UID_TAG] == cr.uid) && Inherited(cr, from, tags)
  {
    assert OwnerOf(cr)[|cr.namespace|] == '/';
  }

  lemma StaleMayTouch(tags: Tags, cr: CR, from: string)
    requires StaleUID(tags, cr).Some? && MayTransferFrom(from, StaleUID(tags, cr).value)
    ensures MayTouch(cr, from, TitleOf(tags))
  {
    assert OwnerOf(cr)[|cr.namespace|] == '/';
  }

  lemma TaggedIsMine(tags: Tags, cr: CR)
    ensures TitleOf(tags + OwnerTags(cr)) == Mine(cr)
    ensures TitleOf(tags - {OWNER_TAG, OWNER_UID_TAG}) == Nobody
  {
    assert |OWNER_TAG| != |OWNER_UID_TAG|;
  }

  lemma TagsAreMine(tags: Tags, cr: CR)
    ensures IsOwnedBy(tags + OwnerTags(cr), cr) && IsOwnedBy(OwnerTags(cr), cr)
    ensures !IsOwnedBy(tags - {OWNER_TAG, OWNER_UID_TAG}, cr)
  {
    assert |OWNER_TAG| != |OWNER_UID_TAG|;
    assert OwnerOf(cr)[|cr.namespace|] == '/';
  }
}
