/** The registry of remote names, the catalog a server sends of it, and what a client makes of that catalog. */
module Registry {
  import opened Base

  // ---------- Sorting names ----------

  /** Python's order of strings: character by character, a prefix first. */
  predicate Before(a: string, b: string) {
    b != [] && (a == [] || a[0] < b[0] || (a[0] == b[0] && Before(a[1..], b[1..])))
  }

  lemma {:induction false} BeforeIsTotal(a: string, b: string)
    ensures a == b || Before(a, b) || Before(b, a)
    ensures !(Before(a, b) && Before(b, a)) && !Before(a, a)
  {
    if a != [] && b != [] && a[0] == b[0] {
      BeforeIsTotal(a[1..], b[1..]);
      assert a == [a[0]] + a[1..] && b == [b[0]] + b[1..];
    }
    if a != [] { BeforeSelf(a); }
  }

  lemma {:induction false} BeforeSelf(a: string)
    ensures !Before(a, a)
  {
    if a != [] { BeforeSelf(a[1..]); }
  }

  lemma {:induction false} BeforeIsTransitive(a: string, b: string, c: string)
    requires Before(a, b) && Before(b, c)
    ensures Before(a, c)
  {
    if a != [] && a[0] == b[0] && b[0] == c[0] {
      BeforeIsTransitive(a[1..], b[1..], c[1..]);
    }
  }

  function Elements(names: seq<string>): set<string> {
    set x | x in names
  }

  ghost predicate Ascending(names: seq<string>) {
    forall i, j :: 0 <= i < j < |names| ==> Before(names[i], names[j])
  }

  lemma {:induction false} FirstExists(names: set<string>) returns (first: string)
    requires names != {}
    ensures first in names && forall x :: x in names && x != first ==> Before(first, x)
  {
    var some :| some in names;
    var others := names - {some};
    first := some;
    if others != {} {
      var f := FirstExists(others);
      BeforeIsTotal(some, f);
      if Before(f, some) { first := f; }
      forall x | x in others && x != first ensures Before(first, x) {
        if x != f && first == some {
          BeforeIsTransitive(some, f, x);
        }
      }
    }
    assert forall x :: x in names ==> x == some || x in others;
  }

  /** `sorted` of a dictionary's keys. */
  method Sort(names: set<string>) returns (r: seq<string>)
    ensures Ascending(r) && Elements(r) == names
  {
    r := [];
    var left := names;
    while left != {}
      invariant left <= names && Elements(r) == names - left
      invariant Ascending(r)
      invariant forall x, y :: x in r && y in left ==> Before(x, y)
      decreases left
    {
      ghost var least := FirstExists(left);
      var first: string :| first in left && forall x :: x in left && x != first ==> Before(first, x);
      assert Elements(r + [first]) == Elements(r) + {first};
      r := r + [first];
      left := left - {first};
    }
  }

  // ---------- The registry ----------

  /** A decorated function or class; `id` stands for the callable itself. */
  datatype Target = Target(name: string, remote: bool, isClass: bool, id: nat)

  datatype Names = Names(functions: map<string, nat>, classes: map<string, nat>)

  predicate Disjoint(names: Names) {
    names.functions.Keys !! names.classes.Keys
  }

  /** What registering a target does to the names, or why it is refused. */
  function Registered(names: Names, target: Target): Result<Names, Error> {
    if !target.remote then Err(Error("FunctionNotRemoteError", target.name))
    else if target.name in names.functions || target.name in names.classes then Err(Error("DuplicateFunctionError", target.name))
    else if target.isClass then Ok(names.(classes := names.classes[target.name := target.id]))
    else Ok(names.(functions := names.functions[target.name := target.id]))
  }

  class RemoteRegistry {
    var functions: map<string, nat>
    var classes: map<string, nat>

    constructor ()
      ensures View() == Names(map[], map[])
    {
      functions, classes := map[], map[];
    }

    function View(): Names
      reads this
    {
      Names(functions, classes)
    }

    /** A marked target with a free name goes into the classes if it is a class and into the functions otherwise; an
        unmarked target or a name in use is refused and leaves the registry as it was. */
    method Register(target: Target) returns (r: Result<Target, Error>)
      modifies this
      ensures r.Ok? ==> r.value == target && target.remote && target.name !in old(functions) && target.name !in old(classes)
      ensures r.Ok? && target.isClass ==> classes == old(classes)[target.name := target.id] && functions == old(functions)
      ensures r.Ok? && !target.isClass ==> functions == old(functions)[target.name := target.id] && classes == old(classes)
      ensures r == Err(Error("FunctionNotRemoteError", target.name)) <==> !target.remote
      ensures r == Err(Error("DuplicateFunctionError", target.name)) <==>
        target.remote && (target.name in old(functions) || target.name in old(classes))
      ensures r.Err? ==> functions == old(functions) && classes == old(classes)
      ensures r.Ok? || r.error.kind == "FunctionNotRemoteError" || r.error.kind == "DuplicateFunctionError"
      ensures match Registered(old(View()), target)
        case Ok(names) => View() == names && r == Ok(target)
        case Err(error) => View() == old(View()) && r == Err(error)
      ensures Disjoint(old(View())) ==> Disjoint(View())
    {
      if !target.remote {
        return Err(Error("FunctionNotRemoteError", target.name));
      }
      if target.name in functions || target.name in classes {
        return Err(Error("DuplicateFunctionError", target.name));
      }
      if target.isClass {
        classes := classes[target.name := target.id];
      } else {
        functions := functions[target.name := target.id];
      }
      r := Ok(target);
    }

    method GetFunction(name: string) returns (r: Result<nat, Error>)
      ensures name in functions ==> r == Ok(functions[name])
      ensures name !in functions ==> r == Err(Error("FunctionNotFoundError", name))
    {
      r := if name in functions then Ok(functions[name]) else Err(Error("FunctionNotFoundError", name));
    }

    method GetClass(name: string) returns (r: Result<nat, Error>)
      ensures name in classes ==> r == Ok(classes[name])
      ensures name !in classes ==> r == Err(Error("RemoteClassNotFoundError", name))
    {
      r := if name in classes then Ok(classes[name]) else Err(Error("RemoteClassNotFoundError", name));
    }

    method Catalog() returns (functionNames: seq<string>, classNames: seq<string>)
      ensures Ascending(functionNames) && Elements(functionNames) == functions.Keys
      ensures Ascending(classNames) && Elements(classNames) == classes.Keys
    {
      functionNames := Sort(functions.Keys);
      classNames := Sort(classes.Keys);
    }
  }

  // ---------- The catalog message ----------

  function Texts(names: seq<string>): seq<Value> {
    seq(|names|, i requires 0 <= i < |names| => Text(names[i]))
  }

  function BuildCatalog(functionNames: seq<string>, classNames: seq<string>): Value {
    Dict(map["type" := Text("catalog"), "functions" := List(Texts(functionNames)), "actors" := List(Texts(classNames))])
  }

  predicate AllText(items: seq<Value>) {
    forall i :: 0 <= i < |items| ==> items[i].Text?
  }

  function Strings(items: seq<Value>): set<string> {
    set i | 0 <= i < |items| && items[i].Text? :: items[i].s
  }

  function Invalid(why: string): Result<set<string>, Error> {
    Err(Error("ProtocolError", why))
  }

  /** The client's checks of the first message, in order; the result is the names of actor classes. */
  function ParseCatalog(message: Value): Result<set<string>, Error> {
    if !message.Dict? || "type" !in message.entries || message.entries["type"] != Text("catalog") then
      Invalid("server did not send a valid remote catalog")
    else
      var m := message.entries;
      if "functions" !in m || !m["functions"].List? || !AllText(m["functions"].items) then
        Invalid("catalog functions must be a sequence of strings")
      else if "actors" !in m || !m["actors"].List? || !AllText(m["actors"].items) then
        Invalid("catalog actors must be a sequence of strings")
      else if Strings(m["functions"].items) * Strings(m["actors"].items) != {} then
        Invalid("catalog names cannot be both functions and actors")
      else Ok(Strings(m["actors"].items))
  }

  datatype Proxy = ActorClass(className: string) | RemoteFunction(functionName: string)

  /** Attribute access on a connected process. */
  function Resolve(actorNames: set<string>, name: string): Option<Proxy> {
    if name != [] && name[0] == '_' then None
    else if name in actorNames then Some(ActorClass(name)) else Some(RemoteFunction(name))
  }

  lemma StringsOfTexts(names: seq<string>)
    ensures AllText(Texts(names)) && Strings(Texts(names)) == Elements(names)
  {
    forall x | x in names ensures x in Strings(Texts(names)) {
      var i :| 0 <= i < |names| && names[i] == x;
      assert Texts(names)[i].s == x;
    }
  }

  /** A client accepts the catalog of a registry exactly when no name is both a function and a class, which no
      registry allows; then it learns exactly the registry's classes. */
  lemma CatalogIsUnderstood(functionNames: seq<string>, classNames: seq<string>)
    ensures var parsed := ParseCatalog(BuildCatalog(functionNames, classNames));
      if Elements(functionNames) * Elements(classNames) == {} then parsed == Ok(Elements(classNames)) else parsed.Err?
  {
    StringsOfTexts(functionNames);
    StringsOfTexts(classNames);
  }

  /** Field `key` of a catalog lists exactly `names`, all of them texts. */
  ghost predicate Lists(message: Value, key: string, names: set<string>) {
    && message.Dict? && key in message.entries && message.entries[key].List?
    && (forall i :: 0 <= i < |message.entries[key].items| ==> message.entries[key].items[i].Text?)
    && (forall n :: n in names <==> Text(n) in message.entries[key].items)
  }

  /** The message is a catalog of these functions and classes, which have no name in common. */
  ghost predicate IsCatalog(message: Value, functionNames: set<string>, classNames: set<string>) {
    && message.Dict? && "type" in message.entries && message.entries["type"] == Text("catalog")
    && Lists(message, "functions", functionNames) && Lists(message, "actors", classNames)
    && functionNames !! classNames
  }

  /** A client accepts a message exactly when it is a catalog of some functions and classes with no name in common, and then it
      learns exactly the classes. */
  lemma ParseCatalogIsExact(message: Value, classNames: set<string>)
    ensures ParseCatalog(message) == Ok(classNames) <==> exists functionNames :: IsCatalog(message, functionNames, classNames)
  {
    if functionNames :| IsCatalog(message, functionNames, classNames) {
      ListedStrings(message, "functions");
      ListedStrings(message, "actors");
      hide Lists;
      assert functionNames == Strings(message.entries["functions"].items);
      assert classNames == Strings(message.entries["actors"].items);
      assert functionNames * classNames == {};
    }
    if ParseCatalog(message) == Ok(classNames) {
      ListedStrings(message, "functions");
      ListedStrings(message, "actors");
      hide Lists;
      var functionNames := Strings(message.entries["functions"].items);
      assert functionNames * classNames == {};
      assert forall n :: n in functionNames && n in classNames ==> n in functionNames * classNames;
      assert IsCatalog(message, functionNames, classNames);
    }
  }

  lemma ListedStrings(message: Value, key: string)
    requires message.Dict? && key in message.entries && message.entries[key].List?
    ensures AllText(message.entries[key].items) <==> Lists(message, key, Strings(message.entries[key].items))
    ensures forall names :: Lists(message, key, names) ==>
      AllText(message.entries[key].items) && names == Strings(message.entries[key].items)
  {
    var items := message.entries[key].items;
    if AllText(items) {
      forall n ensures n in Strings(items) <==> Text(n) in items {
        if Text(n) in items {
          var i :| 0 <= i < |items| && items[i] == Text(n);
        }
      }
    }
  }

  /** What a registry sends lists its functions and its classes. */
  lemma BuildCatalogLists(functionNames: seq<string>, classNames: seq<string>)
    requires Elements(functionNames) !! Elements(classNames)
    ensures IsCatalog(BuildCatalog(functionNames, classNames), Elements(functionNames), Elements(classNames))
  {
    ListedTexts(functionNames);
    ListedTexts(classNames);
  }

  lemma ListedTexts(names: seq<string>)
    ensures forall i :: 0 <= i < |Texts(names)| ==> Texts(names)[i].Text?
    ensures forall n :: n in Elements(names) <==> Text(n) in Texts(names)
  {
    forall n | n in Elements(names) ensures Text(n) in Texts(names) {
      var i :| 0 <= i < |names| && names[i] == n;
      assert Texts(names)[i] == Text(n);
    }
  }

  // ---------- A snapshot stays right ----------

  function RegisteredAll(names: Names, targets: seq<Target>): Names {
    if targets == [] then names
    else
      var before := RegisteredAll(names, targets[..|targets| - 1]);
      var r := Registered(before, targets[|targets| - 1]);
      if r.Ok? then r.value else before
  }

  /** Target `k` is the first marked one of its name, and the name was free. */
  predicate Accepted(names: Names, targets: seq<Target>, k: nat) {
    && k < |targets| && targets[k].remote
    && targets[k].name !in names.functions && targets[k].name !in names.classes
    && forall i :: 0 <= i < k ==> targets[i].remote ==> targets[i].name != targets[k].name
  }

  /** The names that were free belong to the first marked target of that name, as what it is: a class is found as a class and
      not as a function, a function as a function and not as a class. */
  lemma {:induction false} FirstTargetsAreFound(names: Names, targets: seq<Target>, n: string)
    requires n !in names.functions && n !in names.classes
    ensures var later := RegisteredAll(names, targets);
      && (forall k: nat :: Accepted(names, targets, k) && targets[k].name == n ==>
            if targets[k].isClass then n in later.classes && later.classes[n] == targets[k].id && n !in later.functions
            else n in later.functions && later.functions[n] == targets[k].id && n !in later.classes)
      && (n in later.functions || n in later.classes ==> exists k: nat :: Accepted(names, targets, k) && targets[k].name == n)
  {
    if targets != [] {
      var rest, last := targets[..|targets| - 1], |targets| - 1;
      var before := RegisteredAll(names, rest);
      FirstTargetsAreFound(names, rest, n);
      forall k | 0 <= k < last ensures Accepted(names, targets, k) <==> Accepted(names, rest, k) {
        assert rest[k] == targets[k] && forall i :: 0 <= i < k ==> rest[i] == targets[i];
      }
      if n in before.functions || n in before.classes {
        var k: nat :| Accepted(names, rest, k) && rest[k].name == n;
        assert Accepted(names, targets, k) && targets[k].name == n;
      } else if targets[last].remote && targets[last].name == n {
        forall i | 0 <= i < last && targets[i].remote ensures targets[i].name != n {
          if targets[i].name == n {
            FirstOf(names, rest, i);
            assert false;
          }
        }
        assert Accepted(names, targets, last);
      }
    }
  }

  /** A marked target has a first one of its name. */
  lemma {:induction false} FirstOf(names: Names, targets: seq<Target>, i: nat)
    requires i < |targets| && targets[i].remote && targets[i].name !in names.functions && targets[i].name !in names.classes
    ensures exists k: nat :: Accepted(names, targets, k) && targets[k].name == targets[i].name
  {
    if Accepted(names, targets, i) {
    } else {
      var j :| 0 <= j < i && targets[j].remote && targets[j].name == targets[i].name;
      FirstOf(names, targets, j);
    }
  }

  lemma {:induction false} RegistrationsOnlyAdd(names: Names, targets: seq<Target>)
    requires Disjoint(names)
    ensures var later := RegisteredAll(names, targets);
      && Disjoint(later)
      && (forall n :: n in names.functions ==> n in later.functions && later.functions[n] == names.functions[n])
      && (forall n :: n in names.classes ==> n in later.classes && later.classes[n] == names.classes[n])
  {
    if targets != [] { RegistrationsOnlyAdd(names, targets[..|targets| - 1]); }
  }

  /** What a client resolved from a catalog stays right, whatever is registered later: a class of the snapshot
      is asked for as an actor class and found, and a function as a function. A
      name registered afterwards as a class is asked for as a function, and not found. */
  lemma SnapshotStaysRight(names: Names, targets: seq<Target>, functionNames: seq<string>,
                           classNames: seq<string>, n: string)
    requires Disjoint(names)
    requires Elements(functionNames) == names.functions.Keys && Elements(classNames) == names.classes.Keys
    ensures ParseCatalog(BuildCatalog(functionNames, classNames)).Ok?
    ensures var later := RegisteredAll(names, targets);
      var proxy := Resolve(ParseCatalog(BuildCatalog(functionNames, classNames)).value, n);
      if n != [] && n[0] == '_' then proxy == None
      else
      && (n in names.classes ==> proxy == Some(ActorClass(n)) && n in later.classes && later.classes[n] == names.classes[n])
      && (n in names.functions ==> proxy == Some(RemoteFunction(n)) && n in later.functions && later.functions[n] == names.functions[n])
      && (n !in names.classes && n in later.classes ==> proxy == Some(RemoteFunction(n)) && n !in later.functions)
  {
    CatalogIsUnderstood(functionNames, classNames);
    RegistrationsOnlyAdd(names, targets);
  }
}
