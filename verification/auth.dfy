/** The token extraction of `login`'s message handler: a message posted by the
    OAuth redirect page carries `smplstt_tw_auth:<token>`. */
module Auth {
  import opened Wrappers
  import opened Text

  const AuthName: string := "smplstt_tw_auth"
  /** The marker a redirect message must start with. */
  const AuthPrefix: string := AuthName + ":"

  /** The token of a redirect message: present only when the message starts
      with the marker, and then the second ':'-separated piece, that is the
      text after the marker up to the next ':' or the end. */
  function ExtractToken(data: string): (token: Option<string>)
    ensures token.Some? <==> AuthPrefix <= data
    ensures token.Some? ==> ':' !in token.value
    ensures token.Some? ==> AuthPrefix + token.value <= data
    ensures token.Some? ==>
      |data| == |AuthPrefix + token.value| || data[|AuthPrefix + token.value|] == ':'
  {
    if AuthPrefix <= data then
      var rest := data[|AuthPrefix|..];
      assert data == AuthName + [':'] + rest;
      SplitAtFirst(AuthName, rest, ':');
      FirstPiece(rest, ':');
      assert data == AuthPrefix + rest;
      Some(Split(data, ':')[1])
    else
      None
  }

  /** The message the redirect page sends for a token gives that token back,
      whatever follows a further ':'. */
  lemma ExtractTokenOfMessage(t: string, tail: string)
    requires ':' !in t
    requires tail == [] || tail[0] == ':'
    ensures ExtractToken(AuthPrefix + t + tail) == Some(t)
  {
    var data := AuthPrefix + t + tail;
    assert AuthPrefix <= data;
    var r := ExtractToken(data).value;
    var n := |AuthPrefix|;
    assert |data| > n + |t| ==> data[n + |t|] == ':';
    assert forall i :: 0 <= i < |r| ==> r[i] == data[n + i];
    if |r| < |t| {
      assert false;
    } else if |t| < |r| {
      assert false;
    }
    assert r == data[|AuthPrefix|..|AuthPrefix| + |r|] == t;
  }

  /** A message without the marker is ignored. */
  lemma ForeignMessageIgnored(data: string)
    requires !(AuthPrefix <= data)
    ensures ExtractToken(data) == None
  {
  }
}
