/**
 DynamoDB as the operator sees it. Every call draws one fault from the stream.
 The log keeps what the proofs quote: tags read, scans answered, the deny
 statement seen in place, and deletes sent.
 */
module TableCloud {
  import opened Sweep
  import opened Ownership

  datatype Table = Table(tags: Tags, items: nat, denied: bool, protected: bool, workable: bool, schema: string)

  datatype Call =
    | TagsRead(arn: string, tags: Tags)
    | Scanned(arn: string, items: nat)
    | DenyInPlace(arn: string)
    | DeleteSent(name: string, arn: string, forced: bool)

  datatype Cloud = Cloud(tables: map<string, Table>, log: seq<Call>, faults: seq<Fault>)

  function TableTitle(w: Cloud, arn: string): Title {
    if arn in w.tables then TitleOf(w.tables[arn].tags) else Nobody
  }

  function TitlesOf(w: Cloud): Titles {
    arn => TableTitle(w, arn)
  }

  // Nothing but the table at this ARN changed.
  ghost predicate OnlyAt(w: Cloud, w': Cloud, arn: string) {
    w'.tables - {arn} == w.tables - {arn}
  }

  function Drawn(w: Cloud): Cloud {
    w.(faults := Rest(w.faults))
  }

  function Logged(w: Cloud, c: Call): Cloud {
    w.(log := w.log + [c])
  }

  function Describe(w: Cloud, arn: string): (r: (Cloud, Reply<Table>))
    ensures r.0.log == w.log
    ensures r.0.tables == w.tables
  {
    (Drawn(w), if !Next(w.faults).Fine? then Failed else if arn in w.tables then Answer(w.tables[arn]) else NotFound)
  }

  function ListTags(w: Cloud, arn: string): (r: (Cloud, Reply<Tags>))
    ensures r.0.log == if r.1.Answer? then w.log + [TagsRead(arn, r.1.value)] else w.log
    ensures r.1.Answer? ==> arn in w.tables && r.1.value == w.tables[arn].tags
    ensures r.0.tables == w.tables
  {
    if !Next(w.faults).Fine? then (Drawn(w), Failed)
    else if arn !in w.tables then (Drawn(w), NotFound)
    else (Logged(Drawn(w), TagsRead(arn, w.tables[arn].tags)), Answer(w.tables[arn].tags))
  }

  // The strongly consistent count of at most one item. The name is cut out of
  // the ARN, which fails when nothing follows its last slash.
  function Scan(w: Cloud, arn: string): (r: (Cloud, Reply<nat>))
    ensures r.0.log == if r.1.Answer? then w.log + [Scanned(arn, r.1.value)] else w.log
    ensures r.1.Answer? ==> arn in w.tables && (r.1.value == 0 <==> w.tables[arn].items == 0)
    ensures r.0.tables == w.tables
  {
    if !NamedInARN(arn) then (w, Failed)
    else if !Next(w.faults).Fine? || arn !in w.tables then (Drawn(w), Failed)
    else
      var count := if w.tables[arn].items == 0 then 0 else 1;
      (Logged(Drawn(w), Scanned(arn, count)), Answer(count))
  }

  predicate NamedInARN(arn: string) {
    arn != "" && '/' in arn && arn[|arn| - 1] != '/'
  }

  // A write of one table, as the fault lets it.
  function Put(w: Cloud, arn: string, t: Table): (r: (Cloud, bool))
    ensures r.0.log == w.log
    ensures r.1 ==> arn in r.0.tables && r.0.tables[arn] == t
  {
    if Next(w.faults).Refused? then (Drawn(w), false)
    else (Drawn(w).(tables := w.tables[arn := t]), Next(w.faults).Fine?)
  }

  // Reads the resource policy and adds the deny statement unless it is there.
  function AddDeny(w: Cloud, arn: string): (r: (Cloud, bool))
    ensures r.0.log == if r.1 then w.log + [DenyInPlace(arn)] else w.log
    ensures r.1 ==> arn in r.0.tables && r.0.tables[arn].denied
  {
    var (w1, t) := Describe(w, arn);
    if !t.Answer? then (w1, false)
    else if t.value.denied then (Logged(w1, DenyInPlace(arn)), true)
    else
      var (w2, ok) := Put(w1, arn, t.value.(denied := true));
      if ok then (Logged(w2, DenyInPlace(arn)), true) else (w2, false)
  }

  // Removes the deny statement; a table that is gone has none.
  function RemoveDeny(w: Cloud, arn: string): (r: (Cloud, bool))
    ensures r.0.log == w.log
    ensures r.1 && arn in r.0.tables ==> !r.0.tables[arn].denied
  {
    var (w1, t) := Describe(w, arn);
    if t.NotFound? then (w1, true)
    else if t.Failed? then (w1, false)
    else if !t.value.denied then (w1, true)
    else Put(w1, arn, t.value.(denied := false))
  }

  // Turns deletion protection off if it is on.
  function ReleaseProtection(w: Cloud, arn: string): (r: (Cloud, bool))
    ensures r.0.log == w.log
  {
    var (w1, t) := Describe(w, arn);
    if t.NotFound? then (w1, true)
    else if t.Failed? then (w1, false)
    else if !t.value.protected then (w1, true)
    else Put(w1, arn, t.value.(protected := false))
  }

  // Deleting a table that is already gone counts as success.
  function DeleteTable(w: Cloud, name: string, arn: string, forced: bool): (r: (Cloud, bool))
    ensures r.0.log == w.log + [DeleteSent(name, arn, forced)]
    ensures r.1 ==> arn !in r.0.tables
  {
    var sent := Logged(Drawn(w), DeleteSent(name, arn, forced));
    if Next(w.faults).Refused? then (sent, false)
    else (sent.(tables := w.tables - {arn}), Next(w.faults).Fine?)
  }

  function UntagOwner(w: Cloud, arn: string): (r: (Cloud, bool))
    ensures r.0.log == w.log
  {
    if arn !in w.tables then (Drawn(w), false)
    else Put(w, arn, w.tables[arn].(tags := w.tables[arn].tags - {OWNER_TAG, OWNER_UID_TAG}))
  }

  // A call whose effect is outside this model: only its failure counts.
  function Unmodelled(w: Cloud): (r: (Cloud, bool))
    ensures r.0.log == w.log
    ensures r.0.tables == w.tables
  {
    (Drawn(w), Next(w.faults).Fine?)
  }
}
