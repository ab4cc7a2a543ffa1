/**
 * The persistent credential store: two string keys, the token and the serialized profile.
 * JSON serialization of the profile is abstracted as a codec given by the caller.
 */
module Storage {
  import opened Wrappers
  import opened Types

  const TokenKey: string := "nexus_token"
  const UserKey: string := "nexus_user"

  /** The value stored under `key`, if any (`localStorage.getItem`). */
  function Lookup(store: map<string, string>, key: string): Option<string> {
    if key in store then Some(store[key]) else None
  }

  /** What parsing a stored profile may give: a syntax error, the JSON literal `null`, or a profile. */
  datatype Parsed = Malformed | ParsedNull | ParsedUser(user: User)

  /** `JSON.stringify` and `JSON.parse` restricted to profiles. */
  datatype ProfileCodec = ProfileCodec(encode: User -> string, decode: string -> Parsed)

  /**
   * What every JSON codec satisfies: a serialized profile parses back to itself and is not
   * the empty string, and the text `null` parses to null.
   */
  ghost predicate IsJson(codec: ProfileCodec) {
    (forall u :: codec.decode(codec.encode(u)) == ParsedUser(u) && codec.encode(u) != "")
    && codec.decode("null") == ParsedNull
  }
}
