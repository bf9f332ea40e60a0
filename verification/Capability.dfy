/** One process's grant: the index a call is resolved through, and the gate that asks
    a human before a guarded call runs. Routing and labelling share the index. */
module Capability {
  import opened Sys
  import opened Flow

  datatype Key = Key(syscall: Name, operation: string)

  /** One dispatchable operation and its policy. */
  datatype Entry = Entry(
    key: Key, discriminator: string, labels: set<Label>, forbid: seq<Label>, requireApproval: bool)

  /** What the table knows about a routed syscall. */
  datatype Route = Route(discriminator: string, hidden: bool)

  /** The index itself. */
  datatype Grants = Grants(
    entries: map<Key, Entry>, routes: map<Name, Route>, reserved: map<Name, bool>, order: seq<Name>)

  const NO_GRANTS := Grants(map[], map[], map[], [])

  /** Reads the case out of a call's arguments. An absent property reads as "". */
  function CaseName(discriminator: string, args: Args): Option<string> {
    if discriminator == "" then Some("") else
      match args
      case Undecodable(_) => None
      case Object(_, properties) =>
        if discriminator !in properties then Some("") else
          match properties[discriminator]
          case Text(text) => Some(text)
          case _ => None
  }

  datatype Resolution = Found(entry: Entry) | Ungranted | Unreadable

  function Resolve(g: Grants, call: Syscall): Resolution {
    if call.name !in g.routes then Ungranted else
      match CaseName(g.routes[call.name].discriminator, call.args)
      case None => Unreadable
      case Some(operation) =>
        var key := Key(call.name, operation);
        if key in g.entries then Found(g.entries[key]) else Ungranted
  }

  /** The source classes a call's result carries: its operation's, if it has one. */
  function LabelsOf(g: Grants, call: Syscall): set<Label> {
    match Resolve(g, call)
    case Found(entry) => entry.labels
    case _ => {}
  }

  /** The labels Stamp puts on every result of a call. */
  function StampLabels(g: Grants, call: Syscall): set<Label> {
    if IsMarker(call.name) then {} else {FromSyscall(call.name)} + LabelsOf(g, call)
  }

  /** The part of the taint that an operation forbids. */
  function Crossing(entry: Entry, taint: Taint): Taint {
    map l | l in entry.forbid && l in taint :: taint[l]
  }

  datatype Routed = Says(result: SyscallResult) | Asks | Runs(entry: Entry)

  /** The bottom of the chain: resolve the call, ask for approval if it needs one, and
      otherwise run the handler. */
  function Decide(g: Grants, taint: Taint, call: Syscall, approved: bool): Routed {
    match Resolve(g, call)
    case Unreadable => Says(FailCode(InvalidArgs, "unreadable case"))
    case Ungranted => Says(FailCode(Denied, "not granted"))
    case Found(entry) =>
      if (entry.requireApproval || Crossing(entry, taint) != map[]) && !approved then Asks else Runs(entry)
  }

  /** A call needs a human: its entry says so, or forbids a label the run holds. */
  predicate Guarded(entry: Entry, taint: Taint) {
    entry.requireApproval || exists l :: l in entry.forbid && l in taint
  }

  lemma ResolvedGate(g: Grants, taint: Taint, call: Syscall, approved: bool)
    ensures Decide(g, taint, call, approved).Runs? <==>
      Resolve(g, call).Found? && (approved || !Guarded(Resolve(g, call).entry, taint))
    ensures Decide(g, taint, call, approved).Runs? ==> Decide(g, taint, call, approved).entry == Resolve(g, call).entry
  {
    if Resolve(g, call).Found? {
      var entry := Resolve(g, call).entry;
      assert Crossing(entry, taint) == map[] <==> forall l :: l in Crossing(entry, taint) ==> false;
      if exists l :: l in entry.forbid && l in taint {
        var l :| l in entry.forbid && l in taint;
        assert l in Crossing(entry, taint);
      }
    }
  }

  // ---- What a call names, read off its arguments ------------------------

  /** The property holds the text. An absent property holds "", and so does the empty
      property name, whatever the arguments are. */
  predicate Holds(args: Args, property: string, text: string) {
    if property == "" then text == ""
    else args.Object? && if property in args.properties then args.properties[property] == Text(text) else text == ""
  }

  /** The call names an operation of a routed syscall. */
  predicate Names(g: Grants, call: Syscall, operation: string) {
    call.name in g.routes && Holds(call.args, g.routes[call.name].discriminator, operation)
  }

  /** The call is one of a routed syscall whose case cannot be read. */
  predicate Misnames(g: Grants, call: Syscall) {
    && call.name in g.routes
    && var property := g.routes[call.name].discriminator;
       && property != ""
       && (call.args.Undecodable? || (property in call.args.properties && !call.args.properties[property].Text?))
  }

  /** The entry filed at the call's own name and the operation it names. */
  ghost predicate Serves(g: Grants, call: Syscall, entry: Entry) {
    exists operation :: Names(g, call, operation) && Files(g, call.name, operation, entry)
  }

  predicate Files(g: Grants, name: Name, operation: string, entry: Entry) {
    Key(name, operation) in g.entries && g.entries[Key(name, operation)] == entry
  }

  /** A call names one operation, unless its syscall is not routed or its case cannot be
      read. */
  lemma NamesOneOperation(g: Grants, call: Syscall, a: string, b: string)
    ensures Names(g, call, a) && Names(g, call, b) ==> a == b
    ensures call.name in g.routes && !Misnames(g, call) <==> exists operation :: Names(g, call, operation)
  {
    if call.name in g.routes && !Misnames(g, call) {
      var property := g.routes[call.name].discriminator;
      if property == "" || property !in call.args.properties {
        assert Names(g, call, "");
      } else {
        assert Names(g, call, call.args.properties[property].text);
      }
    }
  }

  lemma ResolvesWhatItNames(g: Grants, call: Syscall, operation: string)
    requires Names(g, call, operation)
    ensures Resolve(g, call) ==
      if Key(call.name, operation) in g.entries then Found(g.entries[Key(call.name, operation)]) else Ungranted
  {
  }

  lemma ResolvedServes(g: Grants, call: Syscall, entry: Entry)
    ensures Resolve(g, call) == Found(entry) <==> Serves(g, call, entry)
  {
    NamesOneOperation(g, call, "", "");
    if call.name in g.routes && !Misnames(g, call) {
      var operation :| Names(g, call, operation);
      ResolvesWhatItNames(g, call, operation);
      ServedByWhatItNames(g, call, operation);
    }
  }

  /** What becomes of a call at the bottom of the chain, exactly. The entry filed at its own
      name and operation runs it, if a human approved it or nothing guards it, and asks
      otherwise. Without such an entry it is denied, and a case that cannot be read is
      refused as invalid. */
  lemma GateIsExact(g: Grants, taint: Taint, call: Syscall, approved: bool, entry: Entry)
    ensures Decide(g, taint, call, approved) == Runs(entry) <==>
      Serves(g, call, entry) && (approved || !Guarded(entry, taint))
    ensures Decide(g, taint, call, approved).Asks? <==>
      exists e :: Serves(g, call, e) && !approved && Guarded(e, taint)
    ensures Misnames(g, call) ==>
      Decide(g, taint, call, approved).Says? && Decide(g, taint, call, approved).result.errno.InvalidArgs?
    ensures !Misnames(g, call) && (forall e :: !Serves(g, call, e)) ==>
      Decide(g, taint, call, approved).Says? && Decide(g, taint, call, approved).result.errno.Denied?
    ensures Decide(g, taint, call, approved).Says? ==> Decide(g, taint, call, approved).result.status.Failed?
  {
    ResolvedGate(g, taint, call, approved);
    NamesOneOperation(g, call, "", "");
    if call.name in g.routes && !Misnames(g, call) {
      var operation :| Names(g, call, operation);
      ResolvesWhatItNames(g, call, operation);
      ServedByWhatItNames(g, call, operation);
    }
  }

  lemma ServedByWhatItNames(g: Grants, call: Syscall, operation: string)
    requires Names(g, call, operation)
    ensures forall e :: Serves(g, call, e) <==> Files(g, call.name, operation, e)
  {
    forall e ensures Serves(g, call, e) <==> Files(g, call.name, operation, e) {
      if Serves(g, call, e) {
        var other :| Names(g, call, other) && Files(g, call.name, other, e);
        NamesOneOperation(g, call, operation, other);
      }
    }
  }

  /** A result is stamped with its call's own syscall, and with the labels of the entry that
      serves the call, and nothing else. The section markers carry no stamp. */
  lemma StampIsTheEntrys(g: Grants, call: Syscall, l: Label)
    ensures l in StampLabels(g, call) <==>
      !IsMarker(call.name) && (l == FromSyscall(call.name) || exists e :: Serves(g, call, e) && l in e.labels)
  {
    NamesOneOperation(g, call, "", "");
    if call.name in g.routes && !Misnames(g, call) {
      var operation :| Names(g, call, operation);
      ResolvesWhatItNames(g, call, operation);
      ServedByWhatItNames(g, call, operation);
    }
  }

  /** One syscall's operations: they share its name and discriminator, and without a
      discriminator there is no case to name. */
  predicate Uniform(family: seq<Entry>) {
    && family != []
    && forall i :: 0 <= i < |family| ==> FitsFamily(family, i)
  }

  predicate FitsFamily(family: seq<Entry>, i: nat)
    requires i < |family|
  {
    && family[i].key.syscall == family[0].key.syscall && family[i].discriminator == family[0].discriminator
    && (family[0].discriminator == "" ==> family[i].key.operation == "")
  }

  /** Every operation is granted once. */
  predicate FreeKeys(family: seq<Entry>, entries: map<Key, Entry>) {
    && (forall i :: 0 <= i < |family| ==> family[i].key !in entries)
    && (forall i, j :: 0 <= i < j < |family| ==> family[i].key != family[j].key)
  }

  datatype AddError = NoError | EmptyFamily | MixedFamily | ServedTwice | AlreadyReserved | GrantedTwice

  class Table {
    var entries: map<Key, Entry>
    var routes: map<Name, Route>
    var reserved: map<Name, bool>
    var order: seq<Name>

    constructor ()
      ensures Index() == NO_GRANTS && Valid()
    {
      entries, routes, reserved, order := map[], map[], map[], [];
    }

    function Index(): Grants
      reads this
    {
      Grants(entries, routes, reserved, order)
    }

    /** A name is admitted once, by a route or by a reservation, and the menu lists
        exactly the admitted names. Entries are filed under their own key. */
    ghost predicate Valid()
      reads this
    {
      && routes.Keys !! reserved.Keys
      && (forall name :: name in order <==> name in routes || name in reserved)
      && (forall i, j :: 0 <= i < j < |order| ==> order[i] != order[j])
      && (forall key :: key in entries ==> entries[key].key == key)
    }

    /** The table holds what it held and one family more: its route, its place on the
        menu, and each of its entries under a key that was free. */
    ghost predicate Indexed(family: seq<Entry>, was: Grants)
      requires family != []
      reads this
    {
      var name := family[0].key.syscall;
      && name !in was.routes && name !in was.reserved
      && routes == was.routes[name := Route(family[0].discriminator, false)]
      && order == was.order + [name]
      && (forall i :: 0 <= i < |family| ==>
            && family[i].key.syscall == name && family[i].key !in was.entries
            && family[i].key in entries && entries[family[i].key] == family[i])
      && (forall key :: key in entries ==> key in was.entries || exists i :: 0 <= i < |family| && family[i].key == key)
    }

    /** Every call that names the entry's operation is served by it. */
    ghost predicate ServesAll(entry: Entry, property: string)
      reads this
    {
      forall call: Syscall | call.name == entry.key.syscall && Holds(call.args, property, entry.key.operation) ::
        Serves(Index(), call, entry)
    }

    lemma AddedIsServed(family: seq<Entry>, was: Grants, i: nat)
      requires family != [] && Indexed(family, was) && i < |family|
      ensures ServesAll(family[i], family[0].discriminator)
    {
      forall call: Syscall
        | call.name == family[i].key.syscall && Holds(call.args, family[0].discriminator, family[i].key.operation)
        ensures Serves(Index(), call, family[i])
      {
        var operation := family[i].key.operation;
        assert Key(call.name, operation) == family[i].key;
        assert Names(Index(), call, operation) && Files(Index(), call.name, operation, family[i]);
      }
    }

    /** The syscall a family grants and the property that names its cases, read from the
        entries. */
    static method Served(family: seq<Entry>) returns (err: AddError)
      ensures err.NoError? <==> Uniform(family)
      ensures err.EmptyFamily? <==> family == []
      ensures !err.NoError? ==> err.EmptyFamily? || err.MixedFamily?
    {
      if family == [] {
        return EmptyFamily;
      }
      var name, discriminator := family[0].key.syscall, family[0].discriminator;
      for i := 0 to |family|
        invariant forall k :: 0 <= k < i ==> FitsFamily(family, k)
      {
        if family[i].key.syscall != name || family[i].discriminator != discriminator
           || (discriminator == "" && family[i].key.operation != "") {
          assert !FitsFamily(family, i);
          return MixedFamily;
        }
      }
      err := NoError;
    }

    /** Files each entry under its key, up to the first whose key is taken. */
    method FileEntries(family: seq<Entry>) returns (ok: bool)
      requires Valid()
      modifies this`entries
      ensures Valid()
      ensures ok <==> FreeKeys(family, old(entries))
      ensures forall key :: key in old(entries) ==> key in entries && entries[key] == old(entries)[key]
      ensures ok ==>
        && (forall i :: 0 <= i < |family| ==> family[i].key in entries && entries[family[i].key] == family[i])
        && (forall key :: key in entries ==>
              key in old(entries) || exists i :: 0 <= i < |family| && family[i].key == key)
    {
      ghost var was := entries;
      for i := 0 to |family|
        invariant FreeKeys(family[..i], was)
        invariant forall key :: key in was ==> key in entries && entries[key] == was[key]
        invariant forall k :: 0 <= k < i ==> family[k].key in entries && entries[family[k].key] == family[k]
        invariant forall key :: key in entries ==>
          && entries[key].key == key
          && (key in was || exists k :: 0 <= k < i && family[k].key == key)
      {
        if family[i].key in entries {
          return false;
        }
        entries := entries[family[i].key := family[i]];
      }
      assert family[..|family|] == family;
      ok := true;
    }

    /** Indexes one family, if and only if it is one syscall's, its name is free, and none of
        its operations is granted twice. A refused family leaves every route as it was. */
    method Add(family: seq<Entry>) returns (err: AddError)
      requires Valid()
      modifies this
      ensures Valid()
      ensures reserved == old(reserved)
      ensures err.NoError? <==>
        && Uniform(family) && FreeKeys(family, old(entries))
        && family[0].key.syscall !in old(routes) && family[0].key.syscall !in old(reserved)
      ensures err.EmptyFamily? || err.MixedFamily? <==> !Uniform(family)
      ensures err.EmptyFamily? <==> family == []
      ensures err.ServedTwice? <==> Uniform(family) && family[0].key.syscall in old(routes)
      ensures err.AlreadyReserved? <==> Uniform(family) && family[0].key.syscall in old(reserved)
      ensures !err.NoError? ==> routes == old(routes) && order == old(order)
      ensures err.NoError? ==> family != [] && Indexed(family, old(Index()))
      ensures err.NoError? ==>
        forall i: nat :: i < |family| ==> ServesAll(family[i], family[0].discriminator)
      ensures forall key :: key in old(entries) ==> key in entries && entries[key] == old(entries)[key]
    {
      err := Served(family);
      if !err.NoError? {
        return;
      }
      var name := family[0].key.syscall;
      if name in routes {
        return ServedTwice;
      }
      if name in reserved {
        return AlreadyReserved;
      }
      var filed := FileEntries(family);
      if !filed {
        return GrantedTwice;
      }
      routes := routes[name := Route(family[0].discriminator, false)];
      order := order + [name];
      forall i | 0 <= i < |family| ensures family[i].key.syscall == name {
        assert FitsFamily(family, i);
      }
      forall i: nat | i < |family| ensures ServesAll(family[i], family[0].discriminator) {
        AddedIsServed(family, old(Index()), i);
      }
      err := NoError;
    }

    /** Admits a syscall that a layer above serves. It routes to no entry. */
    method Reserve(name: Name, hidden: bool) returns (err: AddError)
      requires Valid()
      modifies this
      ensures Valid()
      ensures entries == old(entries) && routes == old(routes)
      ensures err.NoError? <==> name !in old(routes) && name !in old(reserved)
      ensures err.NoError? ==> reserved == old(reserved)[name := hidden] && order == old(order) + [name]
      ensures !err.NoError? ==> reserved == old(reserved) && order == old(order)
    {
      if name in routes {
        return ServedTwice;
      }
      if name in reserved {
        return AlreadyReserved;
      }
      reserved := reserved[name := hidden];
      order := order + [name];
      err := NoError;
    }

    /** Takes a routed syscall off the menu. Nothing else about it changes. */
    method Hide(name: Name)
      requires Valid()
      modifies this
      ensures Valid()
      ensures entries == old(entries) && reserved == old(reserved) && order == old(order)
      ensures routes ==
        if name in old(routes) then old(routes)[name := old(routes)[name].(hidden := true)] else old(routes)
    {
      if name in routes {
        routes := routes[name := routes[name].(hidden := true)];
      }
    }

    /** The part of a taint an entry forbids, gathered label by label. */
    static method GatherCrossing(entry: Entry, taint: Taint) returns (crossing: Taint)
      ensures crossing == Crossing(entry, taint)
    {
      crossing := map[];
      for i := 0 to |entry.forbid|
        invariant crossing == map l | l in entry.forbid[..i] && l in taint :: taint[l]
      {
        var lab := entry.forbid[i];
        assert entry.forbid[..i + 1] == entry.forbid[..i] + [lab];
        if lab in taint {
          crossing := crossing[lab := taint[lab]];
        }
      }
      assert entry.forbid[..|entry.forbid|] == entry.forbid;
    }
  }

  /** A reserved name never reaches a handler: a layer that fails to intercept its own
      syscall fails closed. */
  lemma ReservedFailsClosed(g: Grants, taint: Taint, call: Syscall, approved: bool)
    requires g.routes.Keys !! g.reserved.Keys && call.name in g.reserved
    ensures Decide(g, taint, call, approved) == Says(FailCode(Denied, "not granted"))
    ensures StampLabels(g, call) <= {FromSyscall(call.name)}
  {
    assert call.name !in g.routes;
  }

  /** Hiding a syscall changes no call's routing, approval or labels. */
  lemma HidingChangesNoPolicy(g: Grants, name: Name, taint: Taint, call: Syscall, approved: bool)
    requires name in g.routes
    ensures var hidden := g.(routes := g.routes[name := g.routes[name].(hidden := true)]);
      Decide(hidden, taint, call, approved) == Decide(g, taint, call, approved)
      && StampLabels(hidden, call) == StampLabels(g, call)
  {
  }
}
