/**
 KMS as the operator sees it: keys found by ARN or through an alias. Every call
 draws one fault from the cloud's stream, so a statement about every stream is
 one about every pattern of failures. Requests that create or destroy are logged
 when they are sent, whether or not they succeed.
 */
module KmsCloud {
  import opened Sweep
  import opened Ownership

  datatype KeyState = Enabled | PendingDeletion | Disabled

  datatype Key = Key(state: KeyState, tags: Tags)

  // An alias found or made to point at a key.
  datatype Sighting = Sighting(alias: string, arn: string)

  datatype AliasReply = Made | Exists | NoAlias

  datatype Cloud = Cloud(
    keys: map<string, Key>,
    aliases: map<string, string>,
    scheduled: seq<string>,
    created: seq<string>,
    sighted: seq<Sighting>,
    faults: seq<Fault>)

  function KeyTitle(w: Cloud, arn: string): Title {
    if arn in w.keys then TitleOf(w.keys[arn].tags) else Nobody
  }

  function TitlesOf(w: Cloud): Titles {
    arn => KeyTitle(w, arn)
  }

  function Drawn(w: Cloud): Cloud {
    w.(faults := Rest(w.faults))
  }

  // A read of the key with this ARN.
  function DescribeKey(w: Cloud, arn: string): (r: (Cloud, Reply<Key>))
    ensures r.0.created == w.created && r.0.sighted == w.sighted
  {
    (Drawn(w), if !Next(w.faults).Fine? then Failed else if arn in w.keys then Answer(w.keys[arn]) else NotFound)
  }

  function ListTags(w: Cloud, arn: string): (r: (Cloud, Reply<Tags>))
    ensures r.0.created == w.created && r.0.sighted == w.sighted
  {
    (Drawn(w), if !Next(w.faults).Fine? || arn !in w.keys then Failed else Answer(w.keys[arn].tags))
  }

  // A call whose effect is outside this model (key policy, rotation): only its failure counts.
  function Unmodelled(w: Cloud): (r: (Cloud, bool))
    ensures r.0.created == w.created && r.0.sighted == w.sighted
    ensures r.0.keys == w.keys
  {
    (Drawn(w), Next(w.faults).Fine?)
  }

  function ScheduleKeyDeletion(w: Cloud, arn: string): (r: (Cloud, bool))
    ensures r.0.created == w.created && r.0.sighted == w.sighted
  {
    var sent := Drawn(w).(scheduled := w.scheduled + [arn]);
    if Next(w.faults).Refused? || arn !in w.keys then (sent, false)
    else (sent.(keys := w.keys[arn := w.keys[arn].(state := PendingDeletion)]), Next(w.faults).Fine?)
  }

  function Retagged(w: Cloud, arn: string, tags: Tags): (r: (Cloud, bool))
    ensures r.0.created == w.created && r.0.sighted == w.sighted
  {
    if Next(w.faults).Refused? || arn !in w.keys then (Drawn(w), false)
    else (Drawn(w).(keys := w.keys[arn := w.keys[arn].(tags := tags)]), Next(w.faults).Fine?)
  }

  function TagResource(w: Cloud, arn: string, tags: Tags): (r: (Cloud, bool))
    ensures r.0.created == w.created && r.0.sighted == w.sighted
  {
    Retagged(w, arn, (if arn in w.keys then w.keys[arn].tags else map[]) + tags)
  }

  function UntagOwner(w: Cloud, arn: string): (r: (Cloud, bool))
    ensures r.0.created == w.created && r.0.sighted == w.sighted
  {
    Retagged(w, arn, (if arn in w.keys then w.keys[arn].tags else map[]) - {OWNER_TAG, OWNER_UID_TAG})
  }

  // CancelKeyDeletion, then EnableKey.
  function ReviveKey(w: Cloud, arn: string): (r: (Cloud, bool))
    ensures r.0.created == w.created && r.0.sighted == w.sighted
  {
    if Next(w.faults).Refused? || arn !in w.keys then (Drawn(w), false)
    else
      var cancelled := Drawn(w).(keys := w.keys[arn := w.keys[arn].(state := Disabled)]);
      if !Next(w.faults).Fine? then (cancelled, false)
      else if Next(cancelled.faults).Refused? then (Drawn(cancelled), false)
      else (Drawn(cancelled).(keys := w.keys[arn := w.keys[arn].(state := Enabled)]), Next(cancelled.faults).Fine?)
  }

  // A read of the key an alias points at, with its ARN.
  function DescribeAlias(w: Cloud, alias: string): (r: (Cloud, Reply<(string, Key)>))
    ensures r.0.keys == w.keys
    ensures r.0.created == w.created && r.0.aliases == w.aliases
    ensures r.0.sighted == if r.1.Answer? then w.sighted + [Sighting(alias, r.1.value.0)] else w.sighted
    ensures r.1.Answer? ==> alias in w.aliases && w.aliases[alias] == r.1.value.0
  {
    if !Next(w.faults).Fine? then (Drawn(w), Failed)
    else if alias !in w.aliases || w.aliases[alias] !in w.keys then (Drawn(w), NotFound)
    else
      var arn := w.aliases[alias];
      (Drawn(w).(sighted := w.sighted + [Sighting(alias, arn)]), Answer((arn, w.keys[arn])))
  }

  // AWS chooses the ARN of a new key; `name` is the ledger name it is made for.
  function CreateKey(w: Cloud, name: string, arn: string, tags: Tags): (r: (Cloud, bool))
    ensures r.0.created == w.created + [name] && r.0.sighted == w.sighted
  {
    var sent := Drawn(w).(created := w.created + [name]);
    if Next(w.faults).Refused? then (sent, false)
    else (sent.(keys := w.keys[arn := Key(Enabled, tags)]), Next(w.faults).Fine?)
  }

  // An alias that exists is refused whatever it points at.
  function CreateAlias(w: Cloud, alias: string, arn: string): (r: (Cloud, AliasReply))
    ensures r.0.keys == w.keys
    ensures r.0.created == w.created
    ensures r.0.sighted == if r.1.Made? then w.sighted + [Sighting(alias, arn)] else w.sighted
    ensures r.1.Made? ==> alias in r.0.aliases && r.0.aliases[alias] == arn
  {
    if Next(w.faults).Refused? || arn !in w.keys then (Drawn(w), NoAlias)
    else if alias in w.aliases then (Drawn(w), if Next(w.faults).Fine? then Exists else NoAlias)
    else if Next(w.faults).LostReply? then (Drawn(w).(aliases := w.aliases[alias := arn]), NoAlias)
    else (Drawn(w).(aliases := w.aliases[alias := arn], sighted := w.sighted + [Sighting(alias, arn)]), Made)
  }
}
