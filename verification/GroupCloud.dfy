/**
 EC2 security groups and their ingress rules, as far as rules name other groups.
 Every call draws one fault.
 */
module GroupCloud {
  import opened Sweep
  import opened Ownership

  // One rule that lets a group in.
  datatype Rule = Rule(protocol: string, from: int, to: int, group: string)

  datatype Group = Group(tags: Tags, rules: set<Rule>)

  datatype Cloud = Cloud(groups: map<string, Group>, faults: seq<Fault>)

  // The shape of the rules this operator makes.
  function Grant(port: int, group: string): Rule {
    Rule("tcp", port, port, group)
  }

  function Drawn(w: Cloud): Cloud {
    w.(faults := Rest(w.faults))
  }

  function Describe(w: Cloud, id: string): (r: (Cloud, Reply<Group>))
    ensures r.0.groups == w.groups
    ensures r.1.Answer? ==> id in w.groups && r.1.value == w.groups[id]
    ensures r.1.NotFound? ==> id !in w.groups
  {
    (Drawn(w), if !Next(w.faults).Fine? then Failed else if id in w.groups then Answer(w.groups[id]) else NotFound)
  }

  function Ruled(w: Cloud, id: string, rules: set<Rule>): Cloud
    requires id in w.groups
  {
    w.(groups := w.groups[id := w.groups[id].(rules := rules)])
  }

  // A request that repeats a rule is refused as a whole, which the callers
  // take for success.
  function Authorize(w: Cloud, id: string, port: int, members: seq<string>): (Cloud, bool) {
    var grants := set m | m in members :: Grant(port, m);
    if Next(w.faults).Refused? || id !in w.groups then (Drawn(w), false)
    else if grants !! w.groups[id].rules then (Ruled(Drawn(w), id, w.groups[id].rules + grants), Next(w.faults).Fine?)
    else (Drawn(w), Next(w.faults).Fine?)
  }

  // Revoking a rule that is not there counts as success.
  function Revoke(w: Cloud, id: string, port: int, member: string): (Cloud, bool) {
    if Next(w.faults).Refused? || id !in w.groups then (Drawn(w), false)
    else (Ruled(Drawn(w), id, w.groups[id].rules - {Grant(port, member)}), Next(w.faults).Fine?)
  }

  ghost predicate Named(w: Cloud, id: string) {
    exists g, r :: g in w.groups && g != id && r in w.groups[g].rules && r.group == id
  }

  predicate IsNamed(w: Cloud, id: string)
    ensures IsNamed(w, id) <==> Named(w, id)
  {
    exists g <- w.groups.Keys, r <- w.groups[g].rules :: g != id && r.group == id
  }

  // A group that another group's rule names cannot be deleted; one that is gone
  // counts as deleted.
  function DeleteGroup(w: Cloud, id: string): (r: (Cloud, bool))
    ensures r.1 ==> id !in r.0.groups
    ensures r.0.groups == w.groups || (r.0.groups == w.groups - {id} && !Named(w, id))
  {
    if Next(w.faults).Refused? || (id in w.groups && IsNamed(w, id)) then (Drawn(w), false)
    else if id !in w.groups then (Drawn(w), Next(w.faults).Fine?)
    else (Drawn(w).(groups := w.groups - {id}), Next(w.faults).Fine?)
  }

  // A call whose effect is outside this model: only its failure counts.
  function Unmodelled(w: Cloud): (r: (Cloud, bool))
    ensures r.0.groups == w.groups
  {
    (Drawn(w), Next(w.faults).Fine?)
  }
}
