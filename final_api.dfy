/** The transform step of the user ETL workflow: every user record pulled from
    the extract step is remapped to a flat record with seven keys, and the whole
    list is handed on only once every record has been remapped. */
module FinalApi {

  import opened Wrappers
  import opened Json

  /** Why one user record could not be remapped; a path lists the keys
      followed from the record itself. */
  datatype Fault =
    /** `key` is missing from the object at `path`. */
    | KeyError(path: seq<string>, key: string)
    /** The value at `path` is indexed by a key but is not an object. */
    | TypeError(path: seq<string>)
    /** The address component at `path` is not a string. */
    | NotText(path: seq<string>)

  /** The step fails at the record at `index`, for `fault`. */
  datatype Failure = Failure(index: nat, fault: Fault)

  /** One output record: the keys ID, Name, Username, Email, Address,
      PhoneNumber and Company, in that order. */
  datatype Record = Record(
    id: Value,
    name: Value,
    username: Value,
    email: Value,
    address: string,
    phoneNumber: Value,
    company: Value)

  // ---------------------------------------------------------------------
  // Looking up keys, as Python's subscript on a decoded JSON value does
  // ---------------------------------------------------------------------

  /** `v[key]`, where `v` sits at path `at` of the record: a missing key of an
      object raises KeyError, indexing anything else by a string raises TypeError. */
  function Subscript(v: Value, at: seq<string>, key: string): Result<Value, Fault>
  {
    match v
    case Obj(m) => if key in m then Ok(m[key]) else Err(KeyError(at, key))
    case _ => Err(TypeError(at))
  }

  /** An address component, which the model requires to be a string. */
  function Text(v: Value, at: seq<string>): Result<string, Fault>
  {
    match v
    case Str(s) => Ok(s)
    case _ => Err(NotText(at))
  }

  // ---------------------------------------------------------------------
  // The address string
  // ---------------------------------------------------------------------

  /** The Address value: street, suite and city separated by ", ". */
  function Join(street: string, suite: string, city: string): string
  {
    street + ", " + suite + ", " + city
  }

  /** `s` holds no ", ". */
  predicate NoSep(s: string)
  {
    forall k | 0 <= k < |s| - 1 :: !(s[k] == ',' && s[k + 1] == ' ')
  }

  /** Splits `s` at its first ", " into the text before and the text after. */
  function Cut(s: string): (r: Option<(string, string)>)
    ensures r.Some? ==> s == r.value.0 + ", " + r.value.1 && NoSep(r.value.0)
    ensures r.None? ==> NoSep(s)
  {
    if |s| < 2 then None
    else if s[0] == ',' && s[1] == ' ' then Some(([], s[2..]))
    else
      match Cut(s[1..])
      case None => None
      case Some((before, after)) => Some(([s[0]] + before, after))
  }

  /** Reads an Address value back into street, suite and city. */
  function Split(address: string): (r: Option<(string, string, string)>)
    ensures r.Some? ==> Join(r.value.0, r.value.1, r.value.2) == address
  {
    match Cut(address)
    case None => None
    case Some((street, rest)) =>
      match Cut(rest)
      case None => None
      case Some((suite, city)) => Some((street, suite, city))
  }

  /** Cutting `a + ", " + b` at its first ", " gives back `a` and `b` when `a`
      holds no comma. */
  lemma {:induction false} CutJoined(a: string, b: string)
    requires ',' !in a
    ensures Cut(a + ", " + b) == Some((a, b))
  {
    var s := a + ", " + b;
    if a == [] {
      assert s == ", " + b;
      assert s[2..] == b;
    } else {
      assert s[0] == a[0] && s[0] != ',';
      assert s[1..] == a[1..] + ", " + b;
      CutJoined(a[1..], b);
      assert [a[0]] + a[1..] == a;
    }
  }

  /** The Address value determines its three components, provided the street
      and the suite hold no comma (the city may hold anything). */
  lemma SplitJoin(street: string, suite: string, city: string)
    requires ',' !in street && ',' !in suite
    ensures Split(Join(street, suite, city)) == Some((street, suite, city))
  {
    assert Join(street, suite, city) == street + ", " + (suite + ", " + city);
    CutJoined(street, suite + ", " + city);
    CutJoined(suite, city);
  }

  // ---------------------------------------------------------------------
  // Remapping one record
  // ---------------------------------------------------------------------

  /** `o` is present and holds a string. */
  predicate IsText(o: Option<Value>)
  {
    o.Some? && o.value.Str?
  }

  /** The string at `path` of `user`. */
  function TextAt(user: Value, path: seq<string>): string
    requires IsText(At(user, path))
  {
    At(user, path).value.s
  }

  /** Every key the remapping reads is present, and the address components are strings. */
  predicate Complete(user: Value)
  {
    && At(user, ["id"]).Some?
    && At(user, ["name"]).Some?
    && At(user, ["username"]).Some?
    && At(user, ["email"]).Some?
    && IsText(At(user, ["address", "street"]))
    && IsText(At(user, ["address", "suite"]))
    && IsText(At(user, ["address", "city"]))
    && At(user, ["phone"]).Some?
    && At(user, ["company", "name"]).Some?
  }

  /** The lookups the remapping makes: each key with the path of the object it is looked up in. */
  const Lookups: seq<(seq<string>, string)> := [
    ([], "id"), ([], "name"), ([], "username"), ([], "email"),
    ([], "address"), (["address"], "street"), (["address"], "suite"), (["address"], "city"),
    ([], "phone"), ([], "company"), (["company"], "name")]

  /** The values the remapping indexes by a key. */
  const ObjectPaths: seq<seq<string>> := [[], ["address"], ["company"]]

  /** The address components. */
  const TextPaths: seq<seq<string>> := [["address", "street"], ["address", "suite"], ["address", "city"]]

  /** `f` names a real defect of `user`: a key that is looked up and missing,
      a value that is indexed and is not an object, or an address component
      that is not a string. */
  predicate Defect(user: Value, f: Fault)
  {
    match f
    case KeyError(p, k) =>
      && (p, k) in Lookups
      && (match At(user, p)
          case Some(Obj(m)) => k !in m
          case _ => false)
    case TypeError(p) => p in ObjectPaths && At(user, p).Some? && !At(user, p).value.Obj?
    case NotText(p) => p in TextPaths && At(user, p).Some? && !At(user, p).value.Str?
  }

  /** One iteration of the loop: the dictionary built for `user`, its keys looked
      up in the order the source evaluates them, the first failing lookup
      ending the step. */
  function Remap(user: Value): (r: Result<Record, Fault>)
    ensures r.Ok? <==> Complete(user)
    ensures r.Ok? ==> Complete(user) && r.value == Record(
                        At(user, ["id"]).value,
                        At(user, ["name"]).value,
                        At(user, ["username"]).value,
                        At(user, ["email"]).value,
                        Join(TextAt(user, ["address", "street"]),
                             TextAt(user, ["address", "suite"]),
                             TextAt(user, ["address", "city"])),
                        At(user, ["phone"]).value,
                        At(user, ["company", "name"]).value)
    ensures r.Err? ==> Defect(user, r.error)
  {
    var id :- Subscript(user, [], "id");
    var name :- Subscript(user, [], "name");
    var username :- Subscript(user, [], "username");
    var email :- Subscript(user, [], "email");
    // The f-string subscripts user['address'] once per component; the three
    // lookups read the same dictionary, so one stands for all three.
    var address :- Subscript(user, [], "address");
    var street :- Subscript(address, ["address"], "street");
    var streetText :- Text(street, ["address", "street"]);
    var suite :- Subscript(address, ["address"], "suite");
    var suiteText :- Text(suite, ["address", "suite"]);
    var city :- Subscript(address, ["address"], "city");
    var cityText :- Text(city, ["address", "city"]);
    var phone :- Subscript(user, [], "phone");
    var company :- Subscript(user, [], "company");
    var companyName :- Subscript(company, ["company"], "name");
    Ok(Record(id, name, username, email, Join(streetText, suiteText, cityText), phone, companyName))
  }

  // ---------------------------------------------------------------------
  // The whole step
  // ---------------------------------------------------------------------

  /** Collects per-record results all or nothing: every record, in order, or
      the first failure together with its index. */
  function Gather(results: seq<Result<Record, Fault>>): Result<seq<Record>, Failure>
  {
    if results == [] then Ok([])
    else
      match results[0]
      case Err(f) => Err(Failure(0, f))
      case Ok(first) =>
        match Gather(results[1..])
        case Err(e) => Err(Failure(e.index + 1, e.fault))
        case Ok(rest) => Ok([first] + rest)
  }

  /** Gathering succeeds exactly when every result is a record, and then yields
      those records in order; otherwise it reports the first failing result. */
  lemma {:induction false} GatherMeaning(results: seq<Result<Record, Fault>>)
    ensures Gather(results).Ok? <==> forall i | 0 <= i < |results| :: results[i].Ok?
    ensures Gather(results).Ok? ==>
              && |Gather(results).value| == |results|
              && forall i | 0 <= i < |results| :: Gather(results).value[i] == results[i].value
    ensures Gather(results).Err? ==>
              && Gather(results).error.index < |results|
              && results[Gather(results).error.index] == Err(Gather(results).error.fault)
              && forall j | 0 <= j < Gather(results).error.index :: results[j].Ok?
  {
    if results != [] {
      GatherMeaning(results[1..]);
      assert forall i | 1 <= i < |results| :: results[i] == results[1..][i - 1];
    }
  }

  /** The result of the step on `users`: every record remapped, in order, or
      the failure of the first record that cannot be. */
  function Transformed(users: seq<Value>): Result<seq<Record>, Failure>
  {
    Gather(seq(|users|, i requires 0 <= i < |users| => Remap(users[i])))
  }

  /** The step succeeds exactly when every record can be remapped; it then yields
      one record per input record, the i-th built from the i-th; otherwise it
      fails at the first record that cannot be remapped, and yields no records. */
  lemma TransformedMeaning(users: seq<Value>)
    ensures Transformed(users).Ok? <==> forall i | 0 <= i < |users| :: Remap(users[i]).Ok?
    ensures Transformed(users).Ok? ==>
              && |Transformed(users).value| == |users|
              && forall i | 0 <= i < |users| :: Transformed(users).value[i] == Remap(users[i]).value
    ensures Transformed(users).Err? ==>
              && Transformed(users).error.index < |users|
              && Remap(users[Transformed(users).error.index]) == Err(Transformed(users).error.fault)
              && forall j | 0 <= j < Transformed(users).error.index :: Remap(users[j]).Ok?
  {
    var results := seq(|users|, i requires 0 <= i < |users| => Remap(users[i]));
    assert Transformed(users) == Gather(results);
    assert forall i | 0 <= i < |users| :: results[i] == Remap(users[i]);
    GatherMeaning(results);
  }

  /** An empty list of users is transformed into an empty list, not a failure. */
  lemma TransformedEmpty()
    ensures Transformed([]) == Ok([])
  {
  }

  /** transform_users: starts an empty list, appends the remapped dictionary of
      each user in turn, and hands the list on only after the loop; a record that
      cannot be remapped ends the step with its failure and nothing is handed on. */
  method TransformUsers(users: seq<Value>) returns (r: Result<seq<Record>, Failure>)
    ensures r == Transformed(users)
  {
    TransformedMeaning(users);
    var transformed: seq<Record> := [];
    var i := 0;
    while i < |users|
      invariant 0 <= i <= |users|
      invariant |transformed| == i
      invariant forall j | 0 <= j < i :: Remap(users[j]).Ok? && transformed[j] == Remap(users[j]).value
    {
      var remapped := Remap(users[i]);
      if remapped.Err? {
        r := Err(Failure(i, remapped.error));
        assert Transformed(users).Err? && Transformed(users).error.index == i;
        return;
      }
      transformed := transformed + [remapped.value];
      i := i + 1;
    }
    r := Ok(transformed);
    assert Transformed(users).Ok? && Transformed(users).value == transformed;
  }

  // ---------------------------------------------------------------------
  // The output dictionary
  // ---------------------------------------------------------------------

  /** The keys of an output dictionary, in insertion order. */
  const Columns: seq<string> := ["ID", "Name", "Username", "Email", "Address", "PhoneNumber", "Company"]

  /** The dictionary the loop appends for `rec`, as its key-value pairs in
      insertion order. */
  function ToRow(rec: Record): (row: seq<(string, Value)>)
    ensures |row| == |Columns|
    ensures forall i | 0 <= i < |row| :: row[i].0 == Columns[i]
    ensures forall i, j | 0 <= i < j < |row| :: row[i].0 != row[j].0
  {
    [("ID", rec.id),
     ("Name", rec.name),
     ("Username", rec.username),
     ("Email", rec.email),
     ("Address", Str(rec.address)),
     ("PhoneNumber", rec.phoneNumber),
     ("Company", rec.company)]
  }

  /** Reads a dictionary with exactly the output keys, in order, and a string
      Address back into a record. */
  function FromRow(row: seq<(string, Value)>): Option<Record>
  {
    if |row| == |Columns| && (forall i | 0 <= i < |row| :: row[i].0 == Columns[i]) && row[4].1.Str? then
      Some(Record(row[0].1, row[1].1, row[2].1, row[3].1, row[4].1.s, row[5].1, row[6].1))
    else
      None
  }

  /** Every output dictionary reads back as the record it was built from. */
  lemma RowRoundTrip(rec: Record)
    ensures FromRow(ToRow(rec)) == Some(rec)
  {
  }

  /** A dictionary that reads back as a record is that record's output dictionary. */
  lemma RowDetermined(row: seq<(string, Value)>)
    requires FromRow(row).Some?
    ensures ToRow(FromRow(row).value) == row
  {
  }
}
