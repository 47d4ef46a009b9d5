/** Zongsoft.Security.Membership.User: the user entity's validating setters
  * for Name, Namespace and PhoneNumber, the validating constructor, and the
  * Equals, ToString and IsBuiltin rules.
  *
  * A null string held by the entity is "" for Name and FullName (the only
  * tests applied to them are blank tests and printing) and None for the
  * nullable Namespace and PhoneNumber. Thrown exceptions are UserError values.
  */
module Membership {
  import opened Text
  import opened Results

  type UInt32 = x: int | 0 <= x < 0x1_0000_0000

  const Administrator: string := "Administrator"
  const Guest: string := "Guest"

  /** The exceptions the setters and the constructor throw. */
  datatype UserError = ArgumentNull | ArgumentOutOfRange | Argument

  /** Char.IsLetterOrDigit, on ASCII. */
  predicate IsLetterOrDigit(c: char) {
    ('a' <= c <= 'z') || ('A' <= c <= 'Z') || ('0' <= c <= '9')
  }

  /** A character allowed in a namespace: a letter, a digit, '_' or '.'. */
  predicate NamespaceChar(c: char) {
    IsLetterOrDigit(c) || c == '_' || c == '.'
  }

  /** The namespaces the Namespace setter accepts: blank ones, and those whose
    * trimmed text consists of namespace characters. */
  predicate ValidNamespace(value: string) {
    IsBlank(value) || forall k :: 0 <= k < |Trim(value)| ==> NamespaceChar(Trim(value)[k])
  }

  /** Trimming twice is trimming once. */
  lemma TrimTwice(s: string)
    ensures Trim(Trim(s)) == Trim(s)
  {
    TrimNoEdge(s);
    TrimIdentity(Trim(s));
  }

  /** A stored user name: blank (the default constructor leaves it null), or
    * trimmed and at least four UTF-16 code units long. */
  predicate StoredName(name: string) {
    name == [] || (Utf16Length(name) >= 4 && NoEdge(name, IsWhiteSpace))
  }

  /** A stored optional text: absent, or non-blank and trimmed. */
  predicate StoredText(t: Option<string>) {
    t.Some? ==> !IsBlank(t.value) && NoEdge(t.value, IsWhiteSpace)
  }

  /** The stored form of a text a setter accepts: null when blank, else trimmed. */
  function Stored(value: string): (t: Option<string>)
    ensures StoredText(t)
  {
    if IsBlank(value) then None
    else
      TrimBlank(value);
      TrimNoEdge(value);
      Some(Trim(value))
  }

  /** String.Equals(a, b, StringComparison.OrdinalIgnoreCase) on nullable strings. */
  predicate SameNamespace(a: Option<string>, b: Option<string>) {
    match (a, b)
    case (None, None) => true
    case (Some(x), Some(y)) => EqualsIgnoreCase(x, y)
    case _ => false
  }

  /** IsBuiltin(userName): the name is Administrator or Guest, ignoring case;
    * so it has the length of one of them, and both names are built in. */
  function IsBuiltinName(userName: string): (b: bool)
    ensures b ==> |userName| == |Administrator| || |userName| == |Guest|
    ensures userName == Administrator || userName == Guest ==> b
  {
    EqualsIgnoreCase(userName, Administrator) || EqualsIgnoreCase(userName, Guest)
  }

  class User {
    var userId: UInt32
    var name: string
    var fullName: string
    var ns: Option<string>
    var phoneNumber: Option<string>
    /** obj.GetType(): the concrete class of the object. */
    const runtimeType: string

    /** What every setter keeps. */
    ghost predicate Valid()
      reads this
    {
      StoredName(name) && StoredText(ns) && StoredText(phoneNumber)
    }

    /** User(): the default constructor, with no name. */
    constructor (runtimeType: string)
      ensures this.runtimeType == runtimeType
      ensures userId == 0 && name == [] && fullName == [] && ns == None && phoneNumber == None
      ensures Valid()
    {
      this.runtimeType := runtimeType;
      userId := 0;
      name := [];
      fullName := [];
      ns := None;
      phoneNumber := None;
    }

    /** The Name setter. A blank value is ignored while the name is still
      * blank and rejected once it is set; a set name is trimmed and at least
      * four UTF-16 code units long. A rejected value leaves the name as it was. */
    method SetName(value: string) returns (error: Option<UserError>)
      modifies this
      ensures IsBlank(value) ==> name == old(name) && error == if IsBlank(old(name)) then None else Some(ArgumentNull)
      ensures !IsBlank(value) && Utf16Length(Trim(value)) < 4 ==> name == old(name) && error == Some(ArgumentOutOfRange)
      ensures !IsBlank(value) && Utf16Length(Trim(value)) >= 4 ==> name == Trim(value) && error == None
      ensures userId == old(userId) && fullName == old(fullName) && ns == old(ns) && phoneNumber == old(phoneNumber)
      ensures old(Valid()) ==> Valid()
    {
      if IsBlank(value) {
        if IsBlank(name) {
          return None;
        }
        return Some(ArgumentNull);
      }
      var trimmed := Trim(value);
      if Utf16Length(trimmed) < 4 {
        return Some(ArgumentOutOfRange);
      }
      TrimNoEdge(value);
      name := trimmed;
      return None;
    }

    /** The FullName setter stores the value as given. */
    method SetFullName(value: string)
      modifies this
      ensures fullName == value
      ensures userId == old(userId) && name == old(name) && ns == old(ns) && phoneNumber == old(phoneNumber)
    {
      fullName := value;
    }

    /** The Namespace setter: checks every character of the trimmed value,
      * then stores null for a blank value and the trimmed value otherwise. */
    method SetNamespace(value: string) returns (error: Option<UserError>)
      modifies this
      ensures error.None? <==> ValidNamespace(value)
      ensures error.None? ==> ns == Stored(value)
      ensures error.Some? ==> error == Some(Argument) && ns == old(ns)
      ensures userId == old(userId) && name == old(name) && fullName == old(fullName) && phoneNumber == old(phoneNumber)
      ensures old(Valid()) ==> Valid()
    {
      var v := value;
      if !IsBlank(v) {
        v := Trim(v);
        for i := 0 to |v|
          invariant forall k :: 0 <= k < i ==> NamespaceChar(v[k])
        {
          var chr := v[i];
          if !IsLetterOrDigit(chr) && chr != '_' && chr != '.' {
            return Some(Argument);
          }
        }
        TrimTwice(value);
        TrimBlank(value);
        TrimBlank(v);
      }
      ns := if IsBlank(v) then None else Some(Trim(v));
      return None;
    }

    /** The PhoneNumber setter: null for a blank value, else the trimmed value. */
    method SetPhoneNumber(value: string)
      modifies this
      ensures phoneNumber == Stored(value)
      ensures userId == old(userId) && name == old(name) && fullName == old(fullName) && ns == old(ns)
      ensures old(Valid()) ==> Valid()
    {
      phoneNumber := if IsBlank(value) then None else Some(Trim(value));
    }

    /** Equals(obj): the same runtime type, the same user id, and namespaces
      * equal ignoring case. */
    function Equals(other: User?): (b: bool)
      reads this, other
      ensures b ==> other != null && other.runtimeType == runtimeType && other.userId == userId
      ensures b ==> (ns.None? <==> other.ns.None?)
      ensures other == this ==> b
    {
      other != null && other.runtimeType == runtimeType && userId == other.userId && SameNamespace(ns, other.ns)
    }

    /** ToString(): "[id]name", followed by "@namespace" when the namespace is not blank. */
    function ToString(): (s: string)
      reads this
      ensures "[" + NatToString(userId) + "]" + name <= s
    {
      UserText(userId, name, ns)
    }
  }

  /** The text starts with "[id]name" and has nothing after it exactly when
    * the namespace is null or blank. */
  function UserText(userId: UInt32, name: string, ns: Option<string>): (s: string)
    ensures "[" + NatToString(userId) + "]" + name <= s
    ensures |s| == |"[" + NatToString(userId) + "]" + name| <==> ns.None? || IsBlank(ns.value)
  {
    var prefix := "[" + NatToString(userId) + "]" + name;
    if ns.None? || IsBlank(ns.value) then prefix else prefix + "@" + ns.value
  }

  /** The user id can be read back from the text: it is the decimal number
    * between the leading '[' and the first ']'. */
  lemma UserTextId(userId: UInt32, name: string, ns: Option<string>)
    ensures var s, id := UserText(userId, name, ns), NatToString(userId);
      && |s| >= |id| + 2 + |name|
      && s[0] == '[' && s[1 + |id|] == ']'
      && s[1..1 + |id|] == id
      && ']' !in id
      && DecimalValue(s[1..1 + |id|]) == userId
  {
    var id := NatToString(userId);
    var prefix := "[" + id + "]" + name;
    assert |prefix| == |id| + 2 + |name|;
    assert prefix[0] == '[' && prefix[1 + |id|] == ']';
    assert prefix[1..1 + |id|] == id;
    var s := UserText(userId, name, ns);
    if ns.None? || IsBlank(ns.value) {
      assert s == prefix;
    } else {
      assert s == prefix + "@" + ns.value;
      assert s[..|prefix|] == prefix;
    }
    assert s[1..1 + |id|] == prefix[1..1 + |id|];
    DecimalRoundTrip(userId);
  }

  /** The text ends with "@namespace" exactly when the namespace is not blank;
    * otherwise it ends with the name. */
  lemma UserTextNamespace(userId: UInt32, name: string, ns: Option<string>)
    ensures var s := UserText(userId, name, ns);
      if ns.None? || IsBlank(ns.value) then |s| >= |name| && s[|s| - |name|..] == name
      else |s| >= |ns.value| + 1 && s[|s| - |ns.value| - 1..] == "@" + ns.value
  {
  }

  /** User(userId, name, namespace): a blank name throws ArgumentNullException;
    * otherwise FullName and then Name receive the trimmed name, and the
    * Namespace setter runs last. A short name or a bad namespace throws from
    * the corresponding setter. */
  method Create(userId: UInt32, name: string, namespace: string, runtimeType: string) returns (r: Result<User, UserError>)
    ensures IsBlank(name) ==> r == Failure(ArgumentNull)
    ensures !IsBlank(name) && Utf16Length(Trim(name)) < 4 ==> r == Failure(ArgumentOutOfRange)
    ensures !IsBlank(name) && Utf16Length(Trim(name)) >= 4 && !ValidNamespace(namespace) ==> r == Failure(Argument)
    ensures !IsBlank(name) && Utf16Length(Trim(name)) >= 4 && ValidNamespace(namespace) ==> r.Success?
    ensures r.Success? ==> fresh(r.value) && r.value.Valid() && r.value.runtimeType == runtimeType
    ensures r.Success? ==> r.value.userId == userId && r.value.name == Trim(name) && r.value.fullName == Trim(name)
    ensures r.Success? ==> r.value.ns == Stored(namespace) && r.value.phoneNumber == None
  {
    if IsBlank(name) {
      return Failure(ArgumentNull);
    }
    var user := new User(runtimeType);
    user.userId := userId;
    var trimmed := Trim(name);
    user.SetFullName(trimmed);
    TrimTwice(name);
    TrimBlank(name);
    TrimBlank(trimmed);
    var error := user.SetName(trimmed);
    if error.Some? {
      return Failure(error.value);
    }
    error := user.SetNamespace(namespace);
    if error.Some? {
      return Failure(error.value);
    }
    return Success(user);
  }

  /** IsBuiltin(user): false for a null user, else IsBuiltin(user.Name). */
  function IsBuiltin(user: User?): (b: bool)
    reads user
    ensures user == null ==> !b
    ensures b ==> |user.name| == |Administrator| || |user.name| == |Guest|
    ensures user != null && (user.name == Administrator || user.name == Guest) ==> b
  {
    user != null && IsBuiltinName(user.name)
  }

  /** OrdinalIgnoreCase equality is an equivalence. */
  lemma EqualsIgnoreCaseEquivalence(a: string, b: string, c: string)
    ensures EqualsIgnoreCase(a, a)
    ensures EqualsIgnoreCase(a, b) ==> EqualsIgnoreCase(b, a)
    ensures EqualsIgnoreCase(a, b) && EqualsIgnoreCase(b, c) ==> EqualsIgnoreCase(a, c)
  {
  }

  /** User.Equals is reflexive, symmetric and transitive. */
  lemma EqualsEquivalence(u: User, v: User, w: User)
    ensures u.Equals(u)
    ensures u.Equals(v) ==> v.Equals(u)
    ensures u.Equals(v) && v.Equals(w) ==> u.Equals(w)
  {
    if u.ns.Some? {
      EqualsIgnoreCaseEquivalence(u.ns.value, u.ns.value, u.ns.value);
    }
    if u.ns.Some? && v.ns.Some? {
      EqualsIgnoreCaseEquivalence(u.ns.value, v.ns.value, if w.ns.Some? then w.ns.value else "");
    }
  }

  /** Users with the same id whose namespaces differ only in case are equal. */
  lemma EqualsIgnoresNamespaceCase(u: User, v: User)
    requires u.runtimeType == v.runtimeType && u.userId == v.userId
    requires u.ns == Some("Zongsoft") && v.ns == Some("ZONGSOFT")
    ensures u.Equals(v) && v.Equals(u)
  {
    assert EqualsIgnoreCase("Zongsoft", "ZONGSOFT");
  }

  /** Being built in depends only on the name up to case. */
  lemma BuiltinIgnoresCase(a: string, b: string)
    requires EqualsIgnoreCase(a, b)
    ensures IsBuiltinName(a) <==> IsBuiltinName(b)
  {
    EqualsIgnoreCaseEquivalence(b, a, Administrator);
    EqualsIgnoreCaseEquivalence(b, a, Guest);
    EqualsIgnoreCaseEquivalence(a, b, Administrator);
    EqualsIgnoreCaseEquivalence(a, b, Guest);
  }

  /** Only names of the lengths of Administrator and Guest can be built in, and
    * an upper-case spelling is. */
  lemma BuiltinNames()
    ensures forall n :: IsBuiltinName(n) ==> |n| == 13 || |n| == 5
    ensures IsBuiltinName("ADMINISTRATOR") && IsBuiltinName("guest")
    ensures !IsBuiltinName("Admin") && !IsBuiltinName("")
  {
    assert EqualsIgnoreCase("ADMINISTRATOR", Administrator);
    assert EqualsIgnoreCase("guest", Guest);
    assert ToUpperChar("Admin"[0]) != ToUpperChar(Guest[0]);
  }
}
