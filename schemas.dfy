/** The domain's data contracts: the zod object schemas for users, monthly
    budgets and expenses, the partial expense schema used for updates, and
    the budget-with-cash-on-hand view.

    A request body is a JSON object, modelled as a map from key to Value.
    Parsing checks every declared key in declaration order, collects one
    Issue per failing key (zod reports them all, not only the first) and, on
    success, returns a record holding the declared keys only: zod's default
    "strip" mode drops every other key. */
module Schemas {
  import opened Results

  /** A JSON value as it arrives in a request body. `Other` stands for null,
      booleans, arrays and nested objects: no string, number or enum field
      of these schemas accepts one. */
  datatype Value = Str(text: string) | Num(number: real) | Other

  type Object = map<string, Value>

  /** zod's own regular expressions for `.uuid()`, `.email()` and
      `.datetime()`, taken as given predicates rather than modelled. */
  datatype Formats = Formats(uuid: string -> bool, email: string -> bool, datetime: string -> bool)

  /** `expenseCategoryEnum` */
  datatype Category =
    | Transportation | Grocery | School | Car | House
    | Travel | Personal | Kids | Miscellaneous

  const CategoryNames: seq<string> :=
    ["TRANSPORTATION", "GROCERY", "SCHOOL", "CAR", "HOUSE", "TRAVEL", "PERSONAL", "KIDS", "MISCELLANEOUS"]

  /** The wire spelling of a category */
  function CategoryName(c: Category): (s: string)
    ensures s in CategoryNames
  {
    match c
    case Transportation => "TRANSPORTATION"
    case Grocery => "GROCERY"
    case School => "SCHOOL"
    case Car => "CAR"
    case House => "HOUSE"
    case Travel => "TRAVEL"
    case Personal => "PERSONAL"
    case Kids => "KIDS"
    case Miscellaneous => "MISCELLANEOUS"
  }

  /** `z.enum([...])` on a string: accepts exactly the nine names */
  function ParseCategory(s: string): (r: Option<Category>)
    ensures r.Some? <==> s in CategoryNames
    ensures r.Some? ==> CategoryName(r.value) == s
  {
    if s == "TRANSPORTATION" then Some(Transportation)
    else if s == "GROCERY" then Some(Grocery)
    else if s == "SCHOOL" then Some(School)
    else if s == "CAR" then Some(Car)
    else if s == "HOUSE" then Some(House)
    else if s == "TRAVEL" then Some(Travel)
    else if s == "PERSONAL" then Some(Personal)
    else if s == "KIDS" then Some(Kids)
    else if s == "MISCELLANEOUS" then Some(Miscellaneous)
    else None
  }

  /** The enumeration has exactly nine distinct members, and names and
      categories correspond one to one. */
  lemma CategoryIsNineValues(c: Category, d: Category)
    ensures |CategoryNames| == 9
    ensures forall i, j :: 0 <= i < j < |CategoryNames| ==> CategoryNames[i] != CategoryNames[j]
    ensures ParseCategory(CategoryName(c)) == Some(c)
    ensures CategoryName(c) == CategoryName(d) ==> c == d
  {
  }

  // ---------------------------------------------------------------------
  // Issues and field checks

  /** zod's issue codes as far as these schemas can raise them. A missing
      required key is zod's "invalid_type" with message "Required"; it is kept
      apart here. */
  datatype IssueCode = Required | InvalidType | InvalidString | TooSmall | InvalidEnumValue

  /** One failing field: its key and what was wrong with it */
  datatype Issue = Issue(path: string, code: IssueCode)

  /** The format of a plain `z.string()`: every string */
  function AnyString(s: string): bool { true }

  /** Issues of a string field; `format` is the check added by `.uuid()`,
      `.email()` or `.datetime()`, `optional` says `.optional()` was applied */
  function StringIssues(o: Object, key: string, optional: bool, format: string -> bool): (r: seq<Issue>)
    ensures forall x :: x in r ==> x.path == key
  {
    if key !in o then (if optional then [] else [Issue(key, Required)])
    else match o[key]
      case Str(s) => if format(s) then [] else [Issue(key, InvalidString)]
      case _ => [Issue(key, InvalidType)]
  }

  /** Issues of a `z.number()` field, with `.positive()` when `positive` */
  function NumberIssues(o: Object, key: string, optional: bool, positive: bool): (r: seq<Issue>)
    ensures forall x :: x in r ==> x.path == key
  {
    if key !in o then (if optional then [] else [Issue(key, Required)])
    else match o[key]
      case Num(n) => if positive && n <= 0.0 then [Issue(key, TooSmall)] else []
      case _ => [Issue(key, InvalidType)]
  }

  /** Issues of an `expenseCategoryEnum` field */
  function CategoryIssues(o: Object, key: string, optional: bool): (r: seq<Issue>)
    ensures forall x :: x in r ==> x.path == key
  {
    if key !in o then (if optional then [] else [Issue(key, Required)])
    else match o[key]
      case Str(s) => if ParseCategory(s).Some? then [] else [Issue(key, InvalidEnumValue)]
      case _ => [Issue(key, InvalidType)]
  }

  /** Reading a field once its checks have passed */
  function OptText(o: Object, key: string): Option<string> {
    if key in o && o[key].Str? then Some(o[key].text) else None
  }

  function OptNumber(o: Object, key: string): Option<real> {
    if key in o && o[key].Num? then Some(o[key].number) else None
  }

  function OptCategory(o: Object, key: string): Option<Category> {
    if key in o && o[key].Str? then ParseCategory(o[key].text) else None
  }

  /** A string field as a JSON value, absent when None */
  function StrValue(v: Option<string>): Option<Value> {
    if v.Some? then Some(Str(v.value)) else None
  }

  function NumValue(v: Option<real>): Option<Value> {
    if v.Some? then Some(Num(v.value)) else None
  }

  function CategoryValue(v: Option<Category>): Option<Value> {
    if v.Some? then Some(Str(CategoryName(v.value))) else None
  }

  /** An optional field satisfies `format` whenever it is present */
  predicate Conforms(v: Option<string>, format: string -> bool) {
    v.Some? ==> format(v.value)
  }

  /** The keys of `o` that a schema declares, with their values: what
      "strip" mode keeps */
  function Restrict(o: Object, keys: set<string>): (r: Object)
    ensures forall k :: k in r <==> k in o && k in keys
    ensures forall k :: k in r ==> r[k] == o[k]
  {
    map k | k in o && k in keys :: o[k]
  }

  /** The value a JSON object holds under `key`, None when the key is absent */
  function Lookup(o: Object, key: string): Option<Value> {
    if key in o then Some(o[key]) else None
  }

  /** The JSON object holding, for each key of `keys`, the value `field`
      gives it (no entry where `field` gives None) */
  function Encode(keys: set<string>, field: string -> Option<Value>): Object {
    map k | k in keys && field(k).Some? :: field(k).value
  }

  /** An encoding that agrees with `o` key by key is `o` stripped to `keys` */
  lemma EncodeIsRestrict(keys: set<string>, field: string -> Option<Value>, o: Object)
    requires forall k :: k in keys ==> field(k) == Lookup(o, k)
    ensures Encode(keys, field) == Restrict(o, keys)
  {
  }

  /** What a string field that raised no issue holds */
  lemma StringFieldFacts(o: Object, key: string, optional: bool, format: string -> bool)
    requires StringIssues(o, key, optional, format) == []
    ensures Conforms(OptText(o, key), format)
    ensures !optional ==> OptText(o, key).Some?
    ensures StrValue(OptText(o, key)) == Lookup(o, key)
  {
  }

  /** What a number field that raised no issue holds */
  lemma NumberFieldFacts(o: Object, key: string, optional: bool, positive: bool)
    requires NumberIssues(o, key, optional, positive) == []
    ensures positive && OptNumber(o, key).Some? ==> OptNumber(o, key).value > 0.0
    ensures !optional ==> OptNumber(o, key).Some?
    ensures NumValue(OptNumber(o, key)) == Lookup(o, key)
  {
  }

  /** What a category field that raised no issue holds */
  lemma CategoryFieldFacts(o: Object, key: string, optional: bool)
    requires CategoryIssues(o, key, optional) == []
    ensures !optional ==> OptCategory(o, key).Some?
    ensures CategoryValue(OptCategory(o, key)) == Lookup(o, key)
  {
  }

  /** A string field holding a conforming value raises no issue and reads back as that value */
  lemma StringFieldFromValue(o: Object, key: string, optional: bool, format: string -> bool, v: Option<string>)
    requires Lookup(o, key) == StrValue(v) && Conforms(v, format) && (optional || v.Some?)
    ensures StringIssues(o, key, optional, format) == [] && OptText(o, key) == v
  {
  }

  lemma NumberFieldFromValue(o: Object, key: string, optional: bool, positive: bool, v: Option<real>)
    requires Lookup(o, key) == NumValue(v) && (positive && v.Some? ==> v.value > 0.0) && (optional || v.Some?)
    ensures NumberIssues(o, key, optional, positive) == [] && OptNumber(o, key) == v
  {
  }

  lemma CategoryFieldFromValue(o: Object, key: string, optional: bool, v: Option<Category>)
    requires Lookup(o, key) == CategoryValue(v) && (optional || v.Some?)
    ensures CategoryIssues(o, key, optional) == [] && OptCategory(o, key) == v
  {
    if v.Some? {
      assert ParseCategory(CategoryName(v.value)) == Some(v.value) by { CategoryIsNineValues(v.value, v.value); }
    }
  }

  /** A field read from an object stripped to a set of keys containing it is
      the field read from the whole object */
  lemma StripField(o: Object, keys: set<string>, key: string)
    requires key in keys
    ensures Lookup(Restrict(o, keys), key) == Lookup(o, key)
    ensures OptText(Restrict(o, keys), key) == OptText(o, key)
    ensures OptNumber(Restrict(o, keys), key) == OptNumber(o, key)
    ensures OptCategory(Restrict(o, keys), key) == OptCategory(o, key)
    ensures forall optional, format :: StringIssues(Restrict(o, keys), key, optional, format) == StringIssues(o, key, optional, format)
    ensures forall optional, positive :: NumberIssues(Restrict(o, keys), key, optional, positive) == NumberIssues(o, key, optional, positive)
    ensures forall optional :: CategoryIssues(Restrict(o, keys), key, optional) == CategoryIssues(o, key, optional)
  {
  }

  // ---------------------------------------------------------------------
  // Audit timestamps: createdAt, updatedAt, deletedAt, each
  // `z.string().datetime().optional()`, shared by the three entities

  datatype Audit = Audit(createdAt: Option<string>, updatedAt: Option<string>, deletedAt: Option<string>)

  const NoAudit := Audit(None, None, None)

  const AuditKeys: set<string> := {"createdAt", "updatedAt", "deletedAt"}

  function AuditIssues(f: Formats, o: Object): (r: seq<Issue>)
    ensures forall x :: x in r ==> x.path in AuditKeys
  {
    StringIssues(o, "createdAt", true, f.datetime)
    + StringIssues(o, "updatedAt", true, f.datetime)
    + StringIssues(o, "deletedAt", true, f.datetime)
  }

  /** The issue a timestamp key raises on its own */
  function AuditFieldIssues(f: Formats, o: Object, key: string): (r: seq<Issue>)
    ensures forall x :: x in r ==> x.path == key
  {
    if key in AuditKeys then StringIssues(o, key, true, f.datetime) else []
  }

  lemma AuditIssueToField(f: Formats, o: Object, x: Issue)
    requires x in AuditIssues(f, o)
    ensures x.path in AuditKeys && x in AuditFieldIssues(f, o, x.path)
  {
    if x in StringIssues(o, "createdAt", true, f.datetime) {
      assert x.path == "createdAt";
    } else if x in StringIssues(o, "updatedAt", true, f.datetime) {
      assert x.path == "updatedAt";
    } else {
      assert x.path == "deletedAt";
    }
  }

  lemma AuditIssueFromField(f: Formats, o: Object, x: Issue)
    requires x.path in AuditKeys && x in AuditFieldIssues(f, o, x.path)
    ensures x in AuditIssues(f, o)
  {
  }

  function AuditOf(o: Object): Audit {
    Audit(OptText(o, "createdAt"), OptText(o, "updatedAt"), OptText(o, "deletedAt"))
  }

  predicate ValidAudit(f: Formats, a: Audit) {
    Conforms(a.createdAt, f.datetime) && Conforms(a.updatedAt, f.datetime) && Conforms(a.deletedAt, f.datetime)
  }

  function AuditField(a: Audit, key: string): Option<Value> {
    if key == "createdAt" then StrValue(a.createdAt)
    else if key == "updatedAt" then StrValue(a.updatedAt)
    else if key == "deletedAt" then StrValue(a.deletedAt)
    else None
  }

  /** Timestamps that raised no issue are well formed and read back as written */
  lemma AuditFacts(f: Formats, o: Object)
    requires AuditIssues(f, o) == []
    ensures ValidAudit(f, AuditOf(o))
    ensures forall k :: k in AuditKeys ==> AuditField(AuditOf(o), k) == Lookup(o, k)
  {
    StringFieldFacts(o, "createdAt", true, f.datetime);
    StringFieldFacts(o, "updatedAt", true, f.datetime);
    StringFieldFacts(o, "deletedAt", true, f.datetime);
  }

  lemma StripAudit(f: Formats, o: Object, keys: set<string>)
    requires AuditKeys <= keys
    ensures AuditIssues(f, Restrict(o, keys)) == AuditIssues(f, o)
    ensures AuditOf(Restrict(o, keys)) == AuditOf(o)
  {
    StripField(o, keys, "createdAt");
    StripField(o, keys, "updatedAt");
    StripField(o, keys, "deletedAt");
  }

  /** Writing well-formed timestamps out and parsing them back */
  lemma AuditRoundTrip(f: Formats, a: Audit, o: Object)
    requires ValidAudit(f, a)
    requires forall k :: k in AuditKeys ==> Lookup(o, k) == AuditField(a, k)
    ensures AuditIssues(f, o) == [] && AuditOf(o) == a
  {
    StringFieldFromValue(o, "createdAt", true, f.datetime, a.createdAt);
    StringFieldFromValue(o, "updatedAt", true, f.datetime, a.updatedAt);
    StringFieldFromValue(o, "deletedAt", true, f.datetime, a.deletedAt);
  }

  // ---------------------------------------------------------------------
  // userSchema

  datatype User = User(
    id: Option<string>, firstName: Option<string>, lastName: Option<string>,
    mobile: string, password: Option<string>, auth0Id: Option<string>,
    email: string, audit: Audit)

  const UserKeys: set<string> :=
    {"id", "first_name", "last_name", "mobile", "password", "auth0Id", "email"} + AuditKeys

  /** What userSchema demands of a parsed user: a well-formed email, and a
      well-formed id and timestamps when they are present. `mobile` is any
      string, the empty one included. */
  predicate ValidUser(f: Formats, u: User) {
    Conforms(u.id, f.uuid) && f.email(u.email) && ValidAudit(f, u.audit)
  }

  function UserIssues(f: Formats, o: Object): (r: seq<Issue>)
    ensures forall x :: x in r ==> x.path in UserKeys
  {
    StringIssues(o, "id", true, f.uuid)
    + StringIssues(o, "first_name", true, AnyString)
    + StringIssues(o, "last_name", true, AnyString)
    + StringIssues(o, "mobile", false, AnyString)
    + StringIssues(o, "password", true, AnyString)
    + StringIssues(o, "auth0Id", true, AnyString)
    + StringIssues(o, "email", false, f.email)
    + AuditIssues(f, o)
  }

  /** The rule userSchema applies to one key, on its own */
  function UserFieldIssues(f: Formats, o: Object, key: string): (r: seq<Issue>)
    ensures forall x :: x in r ==> x.path == key
  {
    if key == "id" then StringIssues(o, key, true, f.uuid)
    else if key == "first_name" || key == "last_name" || key == "password" || key == "auth0Id" then StringIssues(o, key, true, AnyString)
    else if key == "mobile" then StringIssues(o, key, false, AnyString)
    else if key == "email" then StringIssues(o, key, false, f.email)
    else AuditFieldIssues(f, o, key)
  }

  /** The issues of a user body are exactly those its declared keys raise
      one by one */
  lemma UserIssuesByField(f: Formats, o: Object)
    ensures forall x :: x in UserIssues(f, o) <==> x.path in UserKeys && x in UserFieldIssues(f, o, x.path)
    ensures UserIssues(f, o) == [] <==> forall k :: k in UserKeys ==> UserFieldIssues(f, o, k) == []
  {
    UserIssuesToFields(f, o);
    UserIssuesFromFields(f, o);
    EmptyIffFieldsEmpty(UserIssues(f, o), UserKeys, k => UserFieldIssues(f, o, k));
  }

  lemma UserIssuesToFields(f: Formats, o: Object)
    ensures forall x :: x in UserIssues(f, o) ==> x.path in UserKeys && x in UserFieldIssues(f, o, x.path)
  {
    assert UserFieldIssues(f, o, "id") == StringIssues(o, "id", true, f.uuid);
    assert UserFieldIssues(f, o, "first_name") == StringIssues(o, "first_name", true, AnyString);
    assert UserFieldIssues(f, o, "last_name") == StringIssues(o, "last_name", true, AnyString);
    assert UserFieldIssues(f, o, "mobile") == StringIssues(o, "mobile", false, AnyString);
    assert UserFieldIssues(f, o, "password") == StringIssues(o, "password", true, AnyString);
    assert UserFieldIssues(f, o, "auth0Id") == StringIssues(o, "auth0Id", true, AnyString);
    assert UserFieldIssues(f, o, "email") == StringIssues(o, "email", false, f.email);
    forall x | x in UserIssues(f, o) ensures x.path in UserKeys && x in UserFieldIssues(f, o, x.path) {
      if x in AuditIssues(f, o) {
        AuditIssueToField(f, o, x);
        assert UserFieldIssues(f, o, x.path) == AuditFieldIssues(f, o, x.path);
      } else {
        assert x in StringIssues(o, "id", true, f.uuid)
          || x in StringIssues(o, "first_name", true, AnyString)
          || x in StringIssues(o, "last_name", true, AnyString)
          || x in StringIssues(o, "mobile", false, AnyString)
          || x in StringIssues(o, "password", true, AnyString)
          || x in StringIssues(o, "auth0Id", true, AnyString)
          || x in StringIssues(o, "email", false, f.email);
      }
    }
  }

  lemma UserIssuesFromFields(f: Formats, o: Object)
    ensures forall x: Issue :: x.path in UserKeys && x in UserFieldIssues(f, o, x.path) ==> x in UserIssues(f, o)
  {
    forall x: Issue | x.path in UserKeys && x in UserFieldIssues(f, o, x.path) ensures x in UserIssues(f, o) {
      if x.path == "id" {
        assert UserFieldIssues(f, o, "id") == StringIssues(o, "id", true, f.uuid);
      } else if x.path == "first_name" {
        assert UserFieldIssues(f, o, "first_name") == StringIssues(o, "first_name", true, AnyString);
      } else if x.path == "last_name" {
        assert UserFieldIssues(f, o, "last_name") == StringIssues(o, "last_name", true, AnyString);
      } else if x.path == "mobile" {
        assert UserFieldIssues(f, o, "mobile") == StringIssues(o, "mobile", false, AnyString);
      } else if x.path == "password" {
        assert UserFieldIssues(f, o, "password") == StringIssues(o, "password", true, AnyString);
      } else if x.path == "auth0Id" {
        assert UserFieldIssues(f, o, "auth0Id") == StringIssues(o, "auth0Id", true, AnyString);
      } else if x.path == "email" {
        assert UserFieldIssues(f, o, "email") == StringIssues(o, "email", false, f.email);
      } else {
        assert x.path in AuditKeys;
        assert UserFieldIssues(f, o, x.path) == AuditFieldIssues(f, o, x.path);
        AuditIssueFromField(f, o, x);
      }
    }
  }

  function UserField(u: User, key: string): Option<Value> {
    if key == "id" then StrValue(u.id)
    else if key == "first_name" then StrValue(u.firstName)
    else if key == "last_name" then StrValue(u.lastName)
    else if key == "mobile" then Some(Str(u.mobile))
    else if key == "password" then StrValue(u.password)
    else if key == "auth0Id" then StrValue(u.auth0Id)
    else if key == "email" then Some(Str(u.email))
    else AuditField(u.audit, key)
  }

  /** A parsed user written back as a JSON object */
  function EncodeUser(u: User): Object {
    Encode(UserKeys, k => UserField(u, k))
  }

  function UserOf(o: Object): User {
    User(OptText(o, "id"), OptText(o, "first_name"), OptText(o, "last_name"),
         OptText(o, "mobile").GetOr(""), OptText(o, "password"), OptText(o, "auth0Id"),
         OptText(o, "email").GetOr(""), AuditOf(o))
  }

  lemma UserFacts(f: Formats, o: Object)
    requires UserIssues(f, o) == []
    ensures ValidUser(f, UserOf(o))
    ensures EncodeUser(UserOf(o)) == Restrict(o, UserKeys)
  {
    StringFieldFacts(o, "id", true, f.uuid);
    StringFieldFacts(o, "first_name", true, AnyString);
    StringFieldFacts(o, "last_name", true, AnyString);
    StringFieldFacts(o, "mobile", false, AnyString);
    StringFieldFacts(o, "password", true, AnyString);
    StringFieldFacts(o, "auth0Id", true, AnyString);
    StringFieldFacts(o, "email", false, f.email);
    AuditFacts(f, o);
    var u := UserOf(o);
    forall k | k in UserKeys ensures UserField(u, k) == Lookup(o, k) {
      if k in AuditKeys { assert UserField(u, k) == AuditField(u.audit, k); }
    }
    EncodeIsRestrict(UserKeys, k => UserField(u, k), o);
  }

  /** `userSchema.parse`: a user that satisfies the schema, holding
      exactly the declared keys of the body, or the issues of every failing
      field */
  function ParseUser(f: Formats, o: Object): (r: Result<User, seq<Issue>>)
    ensures r.Success? ==> ValidUser(f, r.value) && EncodeUser(r.value) == Restrict(o, UserKeys)
    ensures r.Failure? ==> r.error != [] && forall x :: x in r.error ==> x.path in UserKeys
  {
    if UserIssues(f, o) != [] then Failure(UserIssues(f, o))
    else UserFacts(f, o); Success(UserOf(o))
  }

  /** A body is a user exactly when no declared key breaks its rule, and a
      rejection lists exactly the issues of the keys that do */
  lemma ParseUserByField(f: Formats, o: Object)
    ensures ParseUser(f, o).Success? <==> forall k :: k in UserKeys ==> UserFieldIssues(f, o, k) == []
    ensures ParseUser(f, o).Failure? ==>
            forall x :: x in ParseUser(f, o).error <==> x.path in UserKeys && x in UserFieldIssues(f, o, x.path)
  {
    UserIssuesByField(f, o);
  }

  /** Parsing ignores every key userSchema does not declare */
  lemma UserStripsUnknownKeys(f: Formats, o: Object)
    ensures ParseUser(f, Restrict(o, UserKeys)) == ParseUser(f, o)
  {
    var keys := UserKeys;
    StripField(o, keys, "id");
    StripField(o, keys, "first_name");
    StripField(o, keys, "last_name");
    StripField(o, keys, "mobile");
    StripField(o, keys, "password");
    StripField(o, keys, "auth0Id");
    StripField(o, keys, "email");
    StripAudit(f, o, keys);
  }

  lemma EncodeUserLookup(u: User)
    ensures forall k :: k in UserKeys ==> Lookup(EncodeUser(u), k) == UserField(u, k)
  {
  }

  /** A user that satisfies the schema survives being written out and parsed back */
  lemma UserRoundTrip(f: Formats, u: User)
    requires ValidUser(f, u)
    ensures ParseUser(f, EncodeUser(u)) == Success(u)
  {
    var o := EncodeUser(u);
    EncodeUserLookup(u);
    UserDataFromValues(f, o, u);
    AuditRoundTrip(f, u.audit, o);
  }

  /** The seven data fields of UserRoundTrip, one by one */
  lemma UserDataFromValues(f: Formats, o: Object, u: User)
    requires ValidUser(f, u)
    requires forall k :: k in UserKeys ==> Lookup(o, k) == UserField(u, k)
    ensures StringIssues(o, "id", true, f.uuid) == [] && OptText(o, "id") == u.id
    ensures StringIssues(o, "first_name", true, AnyString) == [] && OptText(o, "first_name") == u.firstName
    ensures StringIssues(o, "last_name", true, AnyString) == [] && OptText(o, "last_name") == u.lastName
    ensures StringIssues(o, "mobile", false, AnyString) == [] && OptText(o, "mobile") == Some(u.mobile)
    ensures StringIssues(o, "password", true, AnyString) == [] && OptText(o, "password") == u.password
    ensures StringIssues(o, "auth0Id", true, AnyString) == [] && OptText(o, "auth0Id") == u.auth0Id
    ensures StringIssues(o, "email", false, f.email) == [] && OptText(o, "email") == Some(u.email)
  {
    assert Lookup(o, "id") == UserField(u, "id");
    StringFieldFromValue(o, "id", true, f.uuid, u.id);
    assert Lookup(o, "first_name") == UserField(u, "first_name");
    StringFieldFromValue(o, "first_name", true, AnyString, u.firstName);
    assert Lookup(o, "last_name") == UserField(u, "last_name");
    StringFieldFromValue(o, "last_name", true, AnyString, u.lastName);
    assert Lookup(o, "mobile") == UserField(u, "mobile");
    StringFieldFromValue(o, "mobile", false, AnyString, Some(u.mobile));
    assert Lookup(o, "password") == UserField(u, "password");
    StringFieldFromValue(o, "password", true, AnyString, u.password);
    assert Lookup(o, "auth0Id") == UserField(u, "auth0Id");
    StringFieldFromValue(o, "auth0Id", true, AnyString, u.auth0Id);
    assert Lookup(o, "email") == UserField(u, "email");
    StringFieldFromValue(o, "email", false, f.email, Some(u.email));
  }

  /** A body with only `mobile` and `email` is a user exactly when the email
      is well formed; every other field is then absent */
  lemma UserNeedsOnlyMobileAndEmail(f: Formats, mobile: string, email: string)
    ensures ParseUser(f, map["mobile" := Str(mobile), "email" := Str(email)]) ==
      if f.email(email) then Success(User(None, None, None, mobile, None, None, email, NoAudit))
      else Failure([Issue("email", InvalidString)])
  {
    var o := map["mobile" := Str(mobile), "email" := Str(email)];
    StringFieldFromValue(o, "id", true, f.uuid, None);
    StringFieldFromValue(o, "first_name", true, AnyString, None);
    StringFieldFromValue(o, "last_name", true, AnyString, None);
    StringFieldFromValue(o, "mobile", false, AnyString, Some(mobile));
    StringFieldFromValue(o, "password", true, AnyString, None);
    StringFieldFromValue(o, "auth0Id", true, AnyString, None);
    AuditRoundTrip(f, NoAudit, o);
    assert UserIssues(f, o) == StringIssues(o, "email", false, f.email);
  }

  // ---------------------------------------------------------------------
  // monthlyExpenseSchema

  datatype MonthlyExpense = MonthlyExpense(
    id: Option<string>, month: real, budgetGoal: real, userId: string, audit: Audit)

  const MonthlyExpenseKeys: set<string> := {"id", "month", "budgetGoal", "userId"} + AuditKeys

  /** What monthlyExpenseSchema demands: a positive budget goal, a
      well-formed owner id, and a well-formed id and timestamps when present.
      `month` is any number. */
  predicate ValidMonthlyExpense(f: Formats, m: MonthlyExpense) {
    Conforms(m.id, f.uuid) && m.budgetGoal > 0.0 && f.uuid(m.userId) && ValidAudit(f, m.audit)
  }

  function MonthlyExpenseIssues(f: Formats, o: Object): (r: seq<Issue>)
    ensures forall x :: x in r ==> x.path in MonthlyExpenseKeys
  {
    StringIssues(o, "id", true, f.uuid)
    + NumberIssues(o, "month", false, false)
    + NumberIssues(o, "budgetGoal", false, true)
    + StringIssues(o, "userId", false, f.uuid)
    + AuditIssues(f, o)
  }

  /** The rule monthlyExpenseSchema applies to one key, on its own */
  function MonthlyExpenseFieldIssues(f: Formats, o: Object, key: string): (r: seq<Issue>)
    ensures forall x :: x in r ==> x.path == key
  {
    if key == "id" then StringIssues(o, key, true, f.uuid)
    else if key == "month" then NumberIssues(o, key, false, false)
    else if key == "budgetGoal" then NumberIssues(o, key, false, true)
    else if key == "userId" then StringIssues(o, key, false, f.uuid)
    else AuditFieldIssues(f, o, key)
  }

  /** The issues of a budget body are exactly those its declared keys raise
      one by one */
  lemma MonthlyExpenseIssuesByField(f: Formats, o: Object)
    ensures forall x :: x in MonthlyExpenseIssues(f, o) <==> x.path in MonthlyExpenseKeys && x in MonthlyExpenseFieldIssues(f, o, x.path)
    ensures MonthlyExpenseIssues(f, o) == [] <==> forall k :: k in MonthlyExpenseKeys ==> MonthlyExpenseFieldIssues(f, o, k) == []
  {
    MonthlyExpenseIssuesToFields(f, o);
    MonthlyExpenseIssuesFromFields(f, o);
    EmptyIffFieldsEmpty(MonthlyExpenseIssues(f, o), MonthlyExpenseKeys, k => MonthlyExpenseFieldIssues(f, o, k));
  }

  lemma MonthlyExpenseIssuesToFields(f: Formats, o: Object)
    ensures forall x :: x in MonthlyExpenseIssues(f, o) ==> x.path in MonthlyExpenseKeys && x in MonthlyExpenseFieldIssues(f, o, x.path)
  {
    assert MonthlyExpenseFieldIssues(f, o, "id") == StringIssues(o, "id", true, f.uuid);
    assert MonthlyExpenseFieldIssues(f, o, "month") == NumberIssues(o, "month", false, false);
    assert MonthlyExpenseFieldIssues(f, o, "budgetGoal") == NumberIssues(o, "budgetGoal", false, true);
    assert MonthlyExpenseFieldIssues(f, o, "userId") == StringIssues(o, "userId", false, f.uuid);
    forall x | x in MonthlyExpenseIssues(f, o) ensures x.path in MonthlyExpenseKeys && x in MonthlyExpenseFieldIssues(f, o, x.path) {
      if x in AuditIssues(f, o) {
        AuditIssueToField(f, o, x);
        assert MonthlyExpenseFieldIssues(f, o, x.path) == AuditFieldIssues(f, o, x.path);
      } else {
        assert x in StringIssues(o, "id", true, f.uuid)
          || x in NumberIssues(o, "month", false, false)
          || x in NumberIssues(o, "budgetGoal", false, true)
          || x in StringIssues(o, "userId", false, f.uuid);
      }
    }
  }

  lemma MonthlyExpenseIssuesFromFields(f: Formats, o: Object)
    ensures forall x: Issue :: x.path in MonthlyExpenseKeys && x in MonthlyExpenseFieldIssues(f, o, x.path) ==> x in MonthlyExpenseIssues(f, o)
  {
    forall x: Issue | x.path in MonthlyExpenseKeys && x in MonthlyExpenseFieldIssues(f, o, x.path) ensures x in MonthlyExpenseIssues(f, o) {
      if x.path == "id" {
        assert MonthlyExpenseFieldIssues(f, o, "id") == StringIssues(o, "id", true, f.uuid);
      } else if x.path == "month" {
        assert MonthlyExpenseFieldIssues(f, o, "month") == NumberIssues(o, "month", false, false);
      } else if x.path == "budgetGoal" {
        assert MonthlyExpenseFieldIssues(f, o, "budgetGoal") == NumberIssues(o, "budgetGoal", false, true);
      } else if x.path == "userId" {
        assert MonthlyExpenseFieldIssues(f, o, "userId") == StringIssues(o, "userId", false, f.uuid);
      } else {
        assert x.path in AuditKeys;
        assert MonthlyExpenseFieldIssues(f, o, x.path) == AuditFieldIssues(f, o, x.path);
        AuditIssueFromField(f, o, x);
      }
    }
  }

  function MonthlyExpenseField(m: MonthlyExpense, key: string): Option<Value> {
    if key == "id" then StrValue(m.id)
    else if key == "month" then Some(Num(m.month))
    else if key == "budgetGoal" then Some(Num(m.budgetGoal))
    else if key == "userId" then Some(Str(m.userId))
    else AuditField(m.audit, key)
  }

  function EncodeMonthlyExpense(m: MonthlyExpense): Object {
    Encode(MonthlyExpenseKeys, k => MonthlyExpenseField(m, k))
  }

  function MonthlyExpenseOf(o: Object): MonthlyExpense {
    MonthlyExpense(OptText(o, "id"), OptNumber(o, "month").GetOr(0.0), OptNumber(o, "budgetGoal").GetOr(0.0),
                   OptText(o, "userId").GetOr(""), AuditOf(o))
  }

  lemma MonthlyExpenseFacts(f: Formats, o: Object)
    requires MonthlyExpenseIssues(f, o) == []
    ensures ValidMonthlyExpense(f, MonthlyExpenseOf(o))
    ensures EncodeMonthlyExpense(MonthlyExpenseOf(o)) == Restrict(o, MonthlyExpenseKeys)
  {
    StringFieldFacts(o, "id", true, f.uuid);
    NumberFieldFacts(o, "month", false, false);
    NumberFieldFacts(o, "budgetGoal", false, true);
    StringFieldFacts(o, "userId", false, f.uuid);
    AuditFacts(f, o);
    var m := MonthlyExpenseOf(o);
    forall k | k in MonthlyExpenseKeys ensures MonthlyExpenseField(m, k) == Lookup(o, k) {
      if k in AuditKeys { assert MonthlyExpenseField(m, k) == AuditField(m.audit, k); }
    }
    EncodeIsRestrict(MonthlyExpenseKeys, k => MonthlyExpenseField(m, k), o);
  }

  /** `monthlyExpenseSchema.parse` */
  function ParseMonthlyExpense(f: Formats, o: Object): (r: Result<MonthlyExpense, seq<Issue>>)
    ensures r.Success? ==> ValidMonthlyExpense(f, r.value) && EncodeMonthlyExpense(r.value) == Restrict(o, MonthlyExpenseKeys)
    ensures r.Failure? ==> r.error != [] && forall x :: x in r.error ==> x.path in MonthlyExpenseKeys
  {
    if MonthlyExpenseIssues(f, o) != [] then Failure(MonthlyExpenseIssues(f, o))
    else MonthlyExpenseFacts(f, o); Success(MonthlyExpenseOf(o))
  }

  /** A body is a budget exactly when no declared key breaks its rule, and a
      rejection lists exactly the issues of the keys that do */
  lemma ParseMonthlyExpenseByField(f: Formats, o: Object)
    ensures ParseMonthlyExpense(f, o).Success? <==> forall k :: k in MonthlyExpenseKeys ==> MonthlyExpenseFieldIssues(f, o, k) == []
    ensures ParseMonthlyExpense(f, o).Failure? ==>
            forall x :: x in ParseMonthlyExpense(f, o).error <==> x.path in MonthlyExpenseKeys && x in MonthlyExpenseFieldIssues(f, o, x.path)
  {
    MonthlyExpenseIssuesByField(f, o);
  }

  lemma MonthlyExpenseStripsUnknownKeys(f: Formats, o: Object)
    ensures ParseMonthlyExpense(f, Restrict(o, MonthlyExpenseKeys)) == ParseMonthlyExpense(f, o)
  {
    var keys := MonthlyExpenseKeys;
    StripField(o, keys, "id");
    StripField(o, keys, "month");
    StripField(o, keys, "budgetGoal");
    StripField(o, keys, "userId");
    StripAudit(f, o, keys);
  }

  lemma MonthlyExpenseRoundTrip(f: Formats, m: MonthlyExpense)
    requires ValidMonthlyExpense(f, m)
    ensures ParseMonthlyExpense(f, EncodeMonthlyExpense(m)) == Success(m)
  {
    var o := EncodeMonthlyExpense(m);
    assert forall k :: k in MonthlyExpenseKeys ==> Lookup(o, k) == MonthlyExpenseField(m, k);
    StringFieldFromValue(o, "id", true, f.uuid, m.id);
    NumberFieldFromValue(o, "month", false, false, Some(m.month));
    NumberFieldFromValue(o, "budgetGoal", false, true, Some(m.budgetGoal));
    StringFieldFromValue(o, "userId", false, f.uuid, Some(m.userId));
    AuditRoundTrip(f, m.audit, o);
  }

  /** A budget goal that is not positive is rejected, naming the field */
  lemma MonthlyExpenseRejectsNonPositiveGoal(f: Formats, o: Object, goal: real)
    requires Lookup(o, "budgetGoal") == Some(Num(goal)) && goal <= 0.0
    ensures ParseMonthlyExpense(f, o).Failure?
    ensures Issue("budgetGoal", TooSmall) in ParseMonthlyExpense(f, o).error
  {
  }

  /** The owner id is required */
  lemma MonthlyExpenseRequiresUserId(f: Formats, o: Object)
    requires "userId" !in o
    ensures ParseMonthlyExpense(f, o).Failure?
    ensures Issue("userId", Required) in ParseMonthlyExpense(f, o).error
  {
  }

  /** `month` is any number: replacing it in an accepted body by any other
      number is accepted too, and changes only the parsed month */
  lemma MonthIsAnyNumber(f: Formats, o: Object, month: real)
    requires ParseMonthlyExpense(f, o).Success?
    ensures ParseMonthlyExpense(f, o["month" := Num(month)]) ==
      Success(ParseMonthlyExpense(f, o).value.(month := month))
  {
    var o' := o["month" := Num(month)];
    assert AuditIssues(f, o') == AuditIssues(f, o) && AuditOf(o') == AuditOf(o);
  }

  // ---------------------------------------------------------------------
  // expenseSchema and expenseSchema.partial()

  datatype Expense = Expense(
    id: Option<string>, description: string, category: Category, amount: real,
    date: string, monthlyExpenseId: string, audit: Audit)

  /** The result of `expenseSchema.partial().parse`: every field optional */
  datatype ExpensePatch = ExpensePatch(
    id: Option<string>, description: Option<string>, category: Option<Category>, amount: Option<real>,
    date: Option<string>, monthlyExpenseId: Option<string>, audit: Audit)

  const ExpenseKeys: set<string> := {"id", "description", "category", "amount", "date", "monthlyExpenseId"} + AuditKeys

  /** What expenseSchema demands: a positive amount, a well-formed date and
      budget id, and a well-formed id and timestamps when present; the
      category is one of the nine by its type. */
  predicate ValidExpense(f: Formats, e: Expense) {
    Conforms(e.id, f.uuid) && e.amount > 0.0 && f.datetime(e.date) && f.uuid(e.monthlyExpenseId)
    && ValidAudit(f, e.audit)
  }

  /** The same rules on the fields a patch carries */
  predicate ValidExpensePatch(f: Formats, p: ExpensePatch) {
    Conforms(p.id, f.uuid) && (p.amount.Some? ==> p.amount.value > 0.0) && Conforms(p.date, f.datetime)
    && Conforms(p.monthlyExpenseId, f.uuid) && ValidAudit(f, p.audit)
  }

  /** Issues of expenseSchema, or of its partial form when `partial` */
  function ExpenseIssues(f: Formats, o: Object, partial: bool): (r: seq<Issue>)
    ensures forall x :: x in r ==> x.path in ExpenseKeys
  {
    StringIssues(o, "id", true, f.uuid)
    + StringIssues(o, "description", partial, AnyString)
    + CategoryIssues(o, "category", partial)
    + NumberIssues(o, "amount", partial, true)
    + StringIssues(o, "date", partial, f.datetime)
    + StringIssues(o, "monthlyExpenseId", partial, f.uuid)
    + AuditIssues(f, o)
  }

  /** The rule expenseSchema, or its partial form, applies to one key, on its own */
  function ExpenseFieldIssues(f: Formats, o: Object, partial: bool, key: string): (r: seq<Issue>)
    ensures forall x :: x in r ==> x.path == key
  {
    if key == "id" then StringIssues(o, key, true, f.uuid)
    else if key == "description" then StringIssues(o, key, partial, AnyString)
    else if key == "category" then CategoryIssues(o, key, partial)
    else if key == "amount" then NumberIssues(o, key, partial, true)
    else if key == "date" then StringIssues(o, key, partial, f.datetime)
    else if key == "monthlyExpenseId" then StringIssues(o, key, partial, f.uuid)
    else AuditFieldIssues(f, o, key)
  }

  /** The issues of an expense body are exactly those its declared keys
      raise one by one */
  lemma ExpenseIssuesByField(f: Formats, o: Object, partial: bool)
    ensures forall x :: x in ExpenseIssues(f, o, partial) <==> x.path in ExpenseKeys && x in ExpenseFieldIssues(f, o, partial, x.path)
    ensures ExpenseIssues(f, o, partial) == [] <==> forall k :: k in ExpenseKeys ==> ExpenseFieldIssues(f, o, partial, k) == []
  {
    ExpenseIssuesToFields(f, o, partial);
    ExpenseIssuesFromFields(f, o, partial);
    EmptyIffFieldsEmpty(ExpenseIssues(f, o, partial), ExpenseKeys, k => ExpenseFieldIssues(f, o, partial, k));
  }

  lemma ExpenseIssuesToFields(f: Formats, o: Object, partial: bool)
    ensures forall x :: x in ExpenseIssues(f, o, partial) ==> x.path in ExpenseKeys && x in ExpenseFieldIssues(f, o, partial, x.path)
  {
    assert ExpenseFieldIssues(f, o, partial, "id") == StringIssues(o, "id", true, f.uuid);
    assert ExpenseFieldIssues(f, o, partial, "description") == StringIssues(o, "description", partial, AnyString);
    assert ExpenseFieldIssues(f, o, partial, "category") == CategoryIssues(o, "category", partial);
    assert ExpenseFieldIssues(f, o, partial, "amount") == NumberIssues(o, "amount", partial, true);
    assert ExpenseFieldIssues(f, o, partial, "date") == StringIssues(o, "date", partial, f.datetime);
    assert ExpenseFieldIssues(f, o, partial, "monthlyExpenseId") == StringIssues(o, "monthlyExpenseId", partial, f.uuid);
    forall x | x in ExpenseIssues(f, o, partial) ensures x.path in ExpenseKeys && x in ExpenseFieldIssues(f, o, partial, x.path) {
      if x in AuditIssues(f, o) {
        AuditIssueToField(f, o, x);
        assert ExpenseFieldIssues(f, o, partial, x.path) == AuditFieldIssues(f, o, x.path);
      } else {
        assert x in StringIssues(o, "id", true, f.uuid)
          || x in StringIssues(o, "description", partial, AnyString)
          || x in CategoryIssues(o, "category", partial)
          || x in NumberIssues(o, "amount", partial, true)
          || x in StringIssues(o, "date", partial, f.datetime)
          || x in StringIssues(o, "monthlyExpenseId", partial, f.uuid);
      }
    }
  }

  lemma ExpenseIssuesFromFields(f: Formats, o: Object, partial: bool)
    ensures forall x: Issue :: x.path in ExpenseKeys && x in ExpenseFieldIssues(f, o, partial, x.path) ==> x in ExpenseIssues(f, o, partial)
  {
    forall x: Issue | x.path in ExpenseKeys && x in ExpenseFieldIssues(f, o, partial, x.path) ensures x in ExpenseIssues(f, o, partial) {
      if x.path == "id" {
        assert ExpenseFieldIssues(f, o, partial, "id") == StringIssues(o, "id", true, f.uuid);
      } else if x.path == "description" {
        assert ExpenseFieldIssues(f, o, partial, "description") == StringIssues(o, "description", partial, AnyString);
      } else if x.path == "category" {
        assert ExpenseFieldIssues(f, o, partial, "category") == CategoryIssues(o, "category", partial);
      } else if x.path == "amount" {
        assert ExpenseFieldIssues(f, o, partial, "amount") == NumberIssues(o, "amount", partial, true);
      } else if x.path == "date" {
        assert ExpenseFieldIssues(f, o, partial, "date") == StringIssues(o, "date", partial, f.datetime);
      } else if x.path == "monthlyExpenseId" {
        assert ExpenseFieldIssues(f, o, partial, "monthlyExpenseId") == StringIssues(o, "monthlyExpenseId", partial, f.uuid);
      } else {
        assert x.path in AuditKeys;
        assert ExpenseFieldIssues(f, o, partial, x.path) == AuditFieldIssues(f, o, x.path);
        AuditIssueFromField(f, o, x);
      }
    }
  }

  function PatchField(p: ExpensePatch, key: string): Option<Value> {
    if key == "id" then StrValue(p.id)
    else if key == "description" then StrValue(p.description)
    else if key == "category" then CategoryValue(p.category)
    else if key == "amount" then NumValue(p.amount)
    else if key == "date" then StrValue(p.date)
    else if key == "monthlyExpenseId" then StrValue(p.monthlyExpenseId)
    else AuditField(p.audit, key)
  }

  /** A full expense, seen as the patch that sets every one of its fields */
  function PatchOf(e: Expense): ExpensePatch {
    ExpensePatch(e.id, Some(e.description), Some(e.category), Some(e.amount), Some(e.date),
                 Some(e.monthlyExpenseId), e.audit)
  }

  function EncodeExpense(e: Expense): Object {
    Encode(ExpenseKeys, k => PatchField(PatchOf(e), k))
  }

  function EncodeExpensePatch(p: ExpensePatch): Object {
    Encode(ExpenseKeys, k => PatchField(p, k))
  }

  function ExpensePatchOf(o: Object): ExpensePatch {
    ExpensePatch(OptText(o, "id"), OptText(o, "description"), OptCategory(o, "category"), OptNumber(o, "amount"),
                 OptText(o, "date"), OptText(o, "monthlyExpenseId"), AuditOf(o))
  }

  function ExpenseOf(o: Object): Expense {
    var p := ExpensePatchOf(o);
    Expense(p.id, p.description.GetOr(""), p.category.GetOr(Miscellaneous), p.amount.GetOr(0.0),
            p.date.GetOr(""), p.monthlyExpenseId.GetOr(""), p.audit)
  }

  lemma ExpenseFacts(f: Formats, o: Object, partial: bool)
    requires ExpenseIssues(f, o, partial) == []
    ensures ValidExpensePatch(f, ExpensePatchOf(o))
    ensures EncodeExpensePatch(ExpensePatchOf(o)) == Restrict(o, ExpenseKeys)
    ensures !partial ==> ValidExpense(f, ExpenseOf(o)) && PatchOf(ExpenseOf(o)) == ExpensePatchOf(o)
  {
    StringFieldFacts(o, "id", true, f.uuid);
    StringFieldFacts(o, "description", partial, AnyString);
    CategoryFieldFacts(o, "category", partial);
    NumberFieldFacts(o, "amount", partial, true);
    StringFieldFacts(o, "date", partial, f.datetime);
    StringFieldFacts(o, "monthlyExpenseId", partial, f.uuid);
    AuditFacts(f, o);
    var p := ExpensePatchOf(o);
    forall k | k in ExpenseKeys ensures PatchField(p, k) == Lookup(o, k) {
      if k in AuditKeys { assert PatchField(p, k) == AuditField(p.audit, k); }
    }
    EncodeIsRestrict(ExpenseKeys, k => PatchField(p, k), o);
  }

  /** `expenseSchema.parse` */
  function ParseExpense(f: Formats, o: Object): (r: Result<Expense, seq<Issue>>)
    ensures r.Success? ==> ValidExpense(f, r.value) && EncodeExpense(r.value) == Restrict(o, ExpenseKeys)
    ensures r.Failure? ==> r.error != [] && forall x :: x in r.error ==> x.path in ExpenseKeys
  {
    if ExpenseIssues(f, o, false) != [] then Failure(ExpenseIssues(f, o, false))
    else ExpenseFacts(f, o, false); Success(ExpenseOf(o))
  }

  /** `expenseSchema.partial().parse` */
  function ParseExpensePatch(f: Formats, o: Object): (r: Result<ExpensePatch, seq<Issue>>)
    ensures r.Success? ==> ValidExpensePatch(f, r.value) && EncodeExpensePatch(r.value) == Restrict(o, ExpenseKeys)
    ensures r.Failure? ==> r.error != [] && forall x :: x in r.error ==> x.path in ExpenseKeys
  {
    if ExpenseIssues(f, o, true) != [] then Failure(ExpenseIssues(f, o, true))
    else ExpenseFacts(f, o, true); Success(ExpensePatchOf(o))
  }

  /** A body is an expense exactly when no declared key breaks its rule, and a
      rejection lists exactly the issues of the keys that do */
  lemma ParseExpenseByField(f: Formats, o: Object)
    ensures ParseExpense(f, o).Success? <==> forall k :: k in ExpenseKeys ==> ExpenseFieldIssues(f, o, false, k) == []
    ensures ParseExpense(f, o).Failure? ==>
            forall x :: x in ParseExpense(f, o).error <==> x.path in ExpenseKeys && x in ExpenseFieldIssues(f, o, false, x.path)
  {
    ExpenseIssuesByField(f, o, false);
  }

  /** The same for the partial schema, whose only required rules are the
      formats of the fields that are present */
  lemma ParseExpensePatchByField(f: Formats, o: Object)
    ensures ParseExpensePatch(f, o).Success? <==> forall k :: k in ExpenseKeys ==> ExpenseFieldIssues(f, o, true, k) == []
    ensures ParseExpensePatch(f, o).Failure? ==>
            forall x :: x in ParseExpensePatch(f, o).error <==> x.path in ExpenseKeys && x in ExpenseFieldIssues(f, o, true, x.path)
  {
    ExpenseIssuesByField(f, o, true);
  }

  lemma ExpenseStripsUnknownKeys(f: Formats, o: Object)
    ensures ParseExpense(f, Restrict(o, ExpenseKeys)) == ParseExpense(f, o)
    ensures ParseExpensePatch(f, Restrict(o, ExpenseKeys)) == ParseExpensePatch(f, o)
  {
    var keys := ExpenseKeys;
    StripField(o, keys, "id");
    StripField(o, keys, "description");
    StripField(o, keys, "category");
    StripField(o, keys, "amount");
    StripField(o, keys, "date");
    StripField(o, keys, "monthlyExpenseId");
    StripAudit(f, o, keys);
  }

  /** A patch whose present fields satisfy the rules survives being written
      out and parsed back */
  lemma ExpensePatchRoundTrip(f: Formats, p: ExpensePatch)
    requires ValidExpensePatch(f, p)
    ensures ParseExpensePatch(f, EncodeExpensePatch(p)) == Success(p)
  {
    var o := EncodeExpensePatch(p);
    assert forall k :: k in ExpenseKeys ==> Lookup(o, k) == PatchField(p, k);
    PatchFieldsFromValues(f, o, p, true);
  }

  /** An object agreeing key by key with a patch whose present fields obey
      the rules raises no issue and reads back as that patch */
  lemma PatchFieldsFromValues(f: Formats, o: Object, p: ExpensePatch, partial: bool)
    requires ValidExpensePatch(f, p)
    requires !partial ==> p.description.Some? && p.category.Some? && p.amount.Some? && p.date.Some? && p.monthlyExpenseId.Some?
    requires forall k :: k in ExpenseKeys ==> Lookup(o, k) == PatchField(p, k)
    ensures ExpenseIssues(f, o, partial) == [] && ExpensePatchOf(o) == p
  {
    PatchDataFieldsFromValues(f, o, p, partial);
    PatchAuditFromValues(f, o, p);
  }

  /** The timestamps of PatchFieldsFromValues */
  lemma PatchAuditFromValues(f: Formats, o: Object, p: ExpensePatch)
    requires ValidAudit(f, p.audit)
    requires forall k :: k in ExpenseKeys ==> Lookup(o, k) == PatchField(p, k)
    ensures AuditIssues(f, o) == [] && AuditOf(o) == p.audit
  {
    assert forall k :: k in AuditKeys ==> PatchField(p, k) == AuditField(p.audit, k);
    AuditRoundTrip(f, p.audit, o);
  }

  /** The six data fields of PatchFieldsFromValues, one by one */
  lemma PatchDataFieldsFromValues(f: Formats, o: Object, p: ExpensePatch, partial: bool)
    requires ValidExpensePatch(f, p)
    requires !partial ==> p.description.Some? && p.category.Some? && p.amount.Some? && p.date.Some? && p.monthlyExpenseId.Some?
    requires forall k :: k in ExpenseKeys ==> Lookup(o, k) == PatchField(p, k)
    ensures StringIssues(o, "id", true, f.uuid) == [] && OptText(o, "id") == p.id
    ensures StringIssues(o, "description", partial, AnyString) == [] && OptText(o, "description") == p.description
    ensures CategoryIssues(o, "category", partial) == [] && OptCategory(o, "category") == p.category
    ensures NumberIssues(o, "amount", partial, true) == [] && OptNumber(o, "amount") == p.amount
    ensures StringIssues(o, "date", partial, f.datetime) == [] && OptText(o, "date") == p.date
    ensures StringIssues(o, "monthlyExpenseId", partial, f.uuid) == [] && OptText(o, "monthlyExpenseId") == p.monthlyExpenseId
  {
    assert Lookup(o, "id") == PatchField(p, "id");
    StringFieldFromValue(o, "id", true, f.uuid, p.id);
    assert Lookup(o, "description") == PatchField(p, "description");
    StringFieldFromValue(o, "description", partial, AnyString, p.description);
    assert Lookup(o, "category") == PatchField(p, "category");
    CategoryFieldFromValue(o, "category", partial, p.category);
    assert Lookup(o, "amount") == PatchField(p, "amount");
    NumberFieldFromValue(o, "amount", partial, true, p.amount);
    assert Lookup(o, "date") == PatchField(p, "date");
    StringFieldFromValue(o, "date", partial, f.datetime, p.date);
    assert Lookup(o, "monthlyExpenseId") == PatchField(p, "monthlyExpenseId");
    StringFieldFromValue(o, "monthlyExpenseId", partial, f.uuid, p.monthlyExpenseId);
  }

  lemma ExpenseRoundTrip(f: Formats, e: Expense)
    requires ValidExpense(f, e)
    ensures ParseExpense(f, EncodeExpense(e)) == Success(e)
  {
    var o := EncodeExpense(e);
    var p := PatchOf(e);
    assert forall k :: k in ExpenseKeys ==> Lookup(o, k) == PatchField(p, k);
    PatchFieldsFromValues(f, o, p, false);
  }

  /** Whatever the full schema accepts, the partial schema accepts as the
      patch that sets every field */
  lemma FullExpenseIsPatch(f: Formats, o: Object)
    requires ParseExpense(f, o).Success?
    ensures ParseExpensePatch(f, o) == Success(PatchOf(ParseExpense(f, o).value))
  {
    ExpenseFacts(f, o, false);
  }

  /** The partial schema accepts the empty body, as the patch that sets nothing */
  lemma EmptyPatchAccepted(f: Formats)
    ensures ParseExpensePatch(f, map[]) == Success(ExpensePatch(None, None, None, None, None, None, NoAudit))
  {
  }

  /** An amount that is not positive is rejected by the full and by the
      partial schema alike */
  lemma ExpenseRejectsNonPositiveAmount(f: Formats, o: Object, amount: real)
    requires Lookup(o, "amount") == Some(Num(amount)) && amount <= 0.0
    ensures ParseExpense(f, o).Failure? && Issue("amount", TooSmall) in ParseExpense(f, o).error
    ensures ParseExpensePatch(f, o).Failure? && Issue("amount", TooSmall) in ParseExpensePatch(f, o).error
  {
  }

  /** A category string outside the nine is rejected by both schemas */
  lemma ExpenseRejectsUnknownCategory(f: Formats, o: Object, name: string)
    requires Lookup(o, "category") == Some(Str(name)) && name !in CategoryNames
    ensures ParseExpense(f, o).Failure? && Issue("category", InvalidEnumValue) in ParseExpense(f, o).error
    ensures ParseExpensePatch(f, o).Failure? && Issue("category", InvalidEnumValue) in ParseExpensePatch(f, o).error
  {
  }

  /** The budget id is required by the full schema, optional in the partial one */
  lemma ExpenseRequiresMonthlyExpenseId(f: Formats, o: Object)
    requires "monthlyExpenseId" !in o
    ensures ParseExpense(f, o).Failure? && Issue("monthlyExpenseId", Required) in ParseExpense(f, o).error
    ensures ParseExpensePatch(f, o).Success? ==> ParseExpensePatch(f, o).value.monthlyExpenseId == None
  {
  }

  /** An `id` that is present but not a UUID is rejected by every schema */
  lemma MalformedIdRejected(f: Formats, o: Object, s: string)
    requires Lookup(o, "id") == Some(Str(s)) && !f.uuid(s)
    ensures ParseUser(f, o).Failure? && Issue("id", InvalidString) in ParseUser(f, o).error
    ensures ParseMonthlyExpense(f, o).Failure? && Issue("id", InvalidString) in ParseMonthlyExpense(f, o).error
    ensures ParseExpense(f, o).Failure? && Issue("id", InvalidString) in ParseExpense(f, o).error
    ensures ParseExpensePatch(f, o).Failure? && Issue("id", InvalidString) in ParseExpensePatch(f, o).error
  {
    var x := Issue("id", InvalidString);
    assert StringIssues(o, "id", true, f.uuid) == [x];
    assert UserIssues(f, o)[0] == x;
    assert MonthlyExpenseIssues(f, o)[0] == x;
    assert ExpenseIssues(f, o, false)[0] == x;
    assert ExpenseIssues(f, o, true)[0] == x;
  }

  /** A timestamp that is present but not an ISO datetime is rejected by
      every schema */
  lemma MalformedTimestampRejected(f: Formats, o: Object, key: string, s: string)
    requires key in AuditKeys && Lookup(o, key) == Some(Str(s)) && !f.datetime(s)
    ensures ParseUser(f, o).Failure? && Issue(key, InvalidString) in ParseUser(f, o).error
    ensures ParseMonthlyExpense(f, o).Failure? && Issue(key, InvalidString) in ParseMonthlyExpense(f, o).error
    ensures ParseExpense(f, o).Failure? && Issue(key, InvalidString) in ParseExpense(f, o).error
    ensures ParseExpensePatch(f, o).Failure? && Issue(key, InvalidString) in ParseExpensePatch(f, o).error
  {
    AuditIssueFor(f, o, key, s);
    AuditIssueInEverySchema(f, o, Issue(key, InvalidString));
  }

  /** Every schema reports the issues of the timestamps */
  lemma AuditIssueInEverySchema(f: Formats, o: Object, x: Issue)
    requires x in AuditIssues(f, o)
    ensures x in UserIssues(f, o) && x in MonthlyExpenseIssues(f, o)
    ensures x in ExpenseIssues(f, o, false) && x in ExpenseIssues(f, o, true)
  {
    InSuffix(x, StringIssues(o, "id", true, f.uuid)
      + StringIssues(o, "first_name", true, AnyString)
      + StringIssues(o, "last_name", true, AnyString)
      + StringIssues(o, "mobile", false, AnyString)
      + StringIssues(o, "password", true, AnyString)
      + StringIssues(o, "auth0Id", true, AnyString)
      + StringIssues(o, "email", false, f.email), AuditIssues(f, o));
    InSuffix(x, StringIssues(o, "id", true, f.uuid)
      + NumberIssues(o, "month", false, false)
      + NumberIssues(o, "budgetGoal", false, true)
      + StringIssues(o, "userId", false, f.uuid), AuditIssues(f, o));
    ExpenseIssueInSuffix(f, o, x, false);
    ExpenseIssueInSuffix(f, o, x, true);
  }

  lemma ExpenseIssueInSuffix(f: Formats, o: Object, x: Issue, partial: bool)
    requires x in AuditIssues(f, o)
    ensures x in ExpenseIssues(f, o, partial)
  {
    InSuffix(x, StringIssues(o, "id", true, f.uuid)
      + StringIssues(o, "description", partial, AnyString)
      + CategoryIssues(o, "category", partial)
      + NumberIssues(o, "amount", partial, true)
      + StringIssues(o, "date", partial, f.datetime)
      + StringIssues(o, "monthlyExpenseId", partial, f.uuid), AuditIssues(f, o));
  }

  lemma AuditIssueFor(f: Formats, o: Object, key: string, s: string)
    requires key in AuditKeys && Lookup(o, key) == Some(Str(s)) && !f.datetime(s)
    ensures Issue(key, InvalidString) in AuditIssues(f, o)
  {
    if key == "createdAt" {
      assert StringIssues(o, key, true, f.datetime) == [Issue(key, InvalidString)];
    } else if key == "updatedAt" {
      assert StringIssues(o, key, true, f.datetime) == [Issue(key, InvalidString)];
    } else {
      assert StringIssues(o, key, true, f.datetime) == [Issue(key, InvalidString)];
    }
  }

  lemma InSuffix<T>(x: T, p: seq<T>, q: seq<T>)
    requires x in q
    ensures x in p + q
  {
    var i :| 0 <= i < |q| && q[i] == x;
    assert (p + q)[|p| + i] == x;
  }

  /** A list of issues that is the union of per-key lists, each naming its
      own key, is empty exactly when every per-key list is */
  lemma EmptyIffFieldsEmpty(all: seq<Issue>, keys: set<string>, field: string -> seq<Issue>)
    requires forall x :: x in all <==> x.path in keys && x in field(x.path)
    requires forall k, x :: k in keys && x in field(k) ==> x.path == k
    ensures all == [] <==> forall k :: k in keys ==> field(k) == []
  {
    forall k | k in keys && field(k) != [] ensures all != [] {
      assert field(k)[0] in all;
    }
    if all != [] {
      assert all[0] in all;
    }
  }

  // ---------------------------------------------------------------------
  // monthlyExpenseWithCashOnHandSchema

  /** monthlyExpenseSchema extended with an optional list of expenses and a
      required cashOnHand number */
  datatype MonthlyExpenseWithCashOnHand = MonthlyExpenseWithCashOnHand(
    budget: MonthlyExpense, expenses: Option<seq<Expense>>, cashOnHand: real)

  predicate ValidMonthlyExpenseWithCashOnHand(f: Formats, v: MonthlyExpenseWithCashOnHand) {
    ValidMonthlyExpense(f, v.budget)
    && (v.expenses.Some? ==> forall e :: e in v.expenses.value ==> ValidExpense(f, e))
  }

  /** cashOnHand carries no sign constraint: a valid view stays valid with
      any cash-on-hand figure, a negative one included */
  lemma CashOnHandUnconstrained(f: Formats, v: MonthlyExpenseWithCashOnHand, cash: real)
    requires ValidMonthlyExpenseWithCashOnHand(f, v)
    ensures ValidMonthlyExpenseWithCashOnHand(f, v.(cashOnHand := cash))
  {
  }
}
