/**
  The stored form of a user record: `JSON.stringify({username, email})` and the
  matching reader standing for `JSON.parse`.
 */
module UserCodec {
  import opened Wrappers
  import opened Json
  import opened AuthReducer

  const UsernameKey: string := "{\"username\":"
  const EmailKey: string := ",\"email\":"
  const Close: string := "}"

  /** The JSON text of a user record, fields in the order the client builds them. */
  function SerializeUser(u: User): string {
    UsernameKey + Quote(u.username) + EmailKey + Quote(u.email) + Close
  }

  /** `s` with the prefix `p` removed, when `s` starts with `p`. */
  function StripPrefix(p: string, s: string): (r: Option<string>)
    ensures r.Some? ==> s == p + r.value
  {
    if |p| <= |s| && s[..|p|] == p then Some(s[|p|..]) else None
  }

  /** Reads `key` followed by one string literal; yields the string and what follows it. */
  function ReadField(key: string, s: string): Option<(string, string)> {
    match StripPrefix(key, s)
    case None => None
    case Some(t) => ReadString(t)
  }

  /** Reads a stored user record; None when the text is not one. */
  function ParseUser(s: string): Option<User> {
    match ReadField(UsernameKey, s)
    case None => None
    case Some((name, s1)) =>
      match ReadField(EmailKey, s1)
      case None => None
      case Some((email, s2)) => if s2 == Close then Some(User(name, email)) else None
  }

  lemma ReadFieldWritten(key: string, x: string, rest: string)
    ensures ReadField(key, key + (Quote(x) + rest)) == Some((x, rest))
  {
    var t := Quote(x) + rest;
    assert (key + t)[..|key|] == key;
    assert (key + t)[|key|..] == t;
    ReadQuoted(x, rest);
  }

  lemma ReadFieldIsWritten(key: string, s: string, x: string, rest: string)
    requires ReadField(key, s) == Some((x, rest))
    ensures s == key + (Quote(x) + rest)
  {
    ReadStringIsQuoted(StripPrefix(key, s).value, x, rest);
  }

  /** What the client writes under "user" reads back as the same user. */
  lemma ParseSerialize(u: User)
    ensures ParseUser(SerializeUser(u)) == Some(u)
  {
    var tail2 := Quote(u.email) + Close;
    var tail1 := EmailKey + tail2;
    assert SerializeUser(u) == UsernameKey + (Quote(u.username) + tail1);
    ReadFieldWritten(UsernameKey, u.username, tail1);
    ReadFieldWritten(EmailKey, u.email, Close);
  }

  /** The reader accepts only such texts: a parsed record is the serialisation of its user. */
  lemma SerializeParse(s: string, u: User)
    requires ParseUser(s) == Some(u)
    ensures SerializeUser(u) == s
  {
    var (name, s1) := ReadField(UsernameKey, s).value;
    var (email, s2) := ReadField(EmailKey, s1).value;
    ReadFieldIsWritten(UsernameKey, s, name, s1);
    ReadFieldIsWritten(EmailKey, s1, email, s2);
    assert s2 == Close && u == User(name, email);
  }
}
