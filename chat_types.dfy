/**
 * Values shared by the chat client: messages as the views hold them, the
 * frames that arrive on a conversation topic, a page of history, the result of
 * resolving a direct conversation, and the JavaScript string trimming that both
 * send paths apply to user input.
 *
 * Times (`createdAt`, `timestamp`, read markers) are epoch milliseconds; the
 * ISO strings of the wire format and their parsing are not modelled.
 */
module ChatTypes {

  datatype Option<+T> = None | Some(value: T)

  datatype Result<+T, +E> = Ok(value: T) | Err(error: E)

  /** A chat message (WsMessageDTO). `tempId` and `timestamp` exist only on the
      optimistic copies the paginated view creates; server copies have neither. */
  datatype Message = Message(
    id: int,
    conversationId: int,
    senderId: int,
    content: string,
    createdAt: int,
    tempId: Option<string>,
    timestamp: Option<int>)

  /** A decoded frame on a conversation topic: either a read receipt
      (`type == "READ"`) or an ordinary chat message. */
  datatype ConvFrame =
    | ReadReceipt(readerUserId: int, lastReadAt: Option<int>)
    | Chat(msg: Message)

  /** One page of paged history; `content` is newest first. */
  datatype MessagePage = MessagePage(content: seq<Message>, totalPages: int, last: bool)

  /** Answer of the direct-conversation resolve endpoint. */
  datatype ResolveResp = ResolveResp(conversationId: int, myUserId: int, friendUserId: int)

  /** JavaScript truthiness of a numeric id that may be null: null and 0 are falsy. */
  predicate IsTruthyId(o: Option<int>)
  {
    o.Some? && o.value != 0
  }

  function Ids(s: seq<Message>): set<int>
  {
    set m | m in s :: m.id
  }

  /** No two entries share an id. */
  predicate UniqueIds(s: seq<Message>)
  {
    forall i, j :: 0 <= i < j < |s| ==> s[i].id != s[j].id
  }

  /** Non-decreasing by `createdAt`. */
  predicate AscendingByTime(s: seq<Message>)
  {
    forall i, j :: 0 <= i < j < |s| ==> s[i].createdAt <= s[j].createdAt
  }

  /** Non-increasing by `createdAt`: the order in which the backend serves pages. */
  predicate DescendingByTime(s: seq<Message>)
  {
    forall i, j :: 0 <= i < j < |s| ==> s[i].createdAt >= s[j].createdAt
  }

  // ---------------------------------------------------------------------------
  // String.prototype.trim

  /** The characters ECMAScript's `trim` strips: WhiteSpace (tab, vertical tab,
      form feed, space, no-break space, byte order mark and the Zs category) and
      LineTerminator (line feed, carriage return, line and paragraph separator). */
  predicate IsJsWhitespace(c: char)
  {
    || c == '\t' || c == '\n' || c == '\U{B}' || c == '\U{C}' || c == '\r'
    || c == ' ' || c == '\U{A0}' || c == '\U{1680}'
    || ('\U{2000}' <= c <= '\U{200A}')
    || c == '\U{2028}' || c == '\U{2029}' || c == '\U{202F}' || c == '\U{205F}'
    || c == '\U{3000}' || c == '\U{FEFF}'
  }

  predicate AllWhitespace(s: string)
  {
    forall i :: 0 <= i < |s| ==> IsJsWhitespace(s[i])
  }

  function TrimStart(s: string): (r: string)
    ensures |r| <= |s| && r == s[|s| - |r|..]
    ensures AllWhitespace(s[..|s| - |r|])
    ensures r != [] ==> !IsJsWhitespace(r[0])
  {
    if s != [] && IsJsWhitespace(s[0]) then
      var r := TrimStart(s[1..]);
      assert r == s[|s| - |r|..];
      var cut := s[..|s| - |r|];
      var restCut := s[1..][..|s| - 1 - |r|];
      assert AllWhitespace(cut) by {
        forall i | 0 <= i < |cut| ensures IsJsWhitespace(cut[i]) {
          if i > 0 {
            assert cut[i] == restCut[i - 1];
          }
        }
      }
      r
    else s
  }

  function TrimEnd(s: string): (r: string)
    ensures |r| <= |s| && r == s[..|r|]
    ensures AllWhitespace(s[|r|..])
    ensures r != [] ==> !IsJsWhitespace(r[|r| - 1])
  {
    if s != [] && IsJsWhitespace(s[|s| - 1]) then
      var r := TrimEnd(s[..|s| - 1]);
      assert r == s[..|r|];
      var cut := s[|r|..];
      var restCut := s[..|s| - 1][|r|..];
      assert AllWhitespace(cut) by {
        forall i | 0 <= i < |cut| ensures IsJsWhitespace(cut[i]) {
          if i < |restCut| {
            assert cut[i] == restCut[i];
          }
        }
      }
      r
    else s
  }

  /** `s.trim()`: no longer than the input, and neither starting nor ending
      with whitespace. `TrimIsFramedSlice` says what was removed. */
  function Trim(s: string): (r: string)
    ensures |r| <= |s|
    ensures r != [] ==> !IsJsWhitespace(r[0]) && !IsJsWhitespace(r[|r| - 1])
  {
    TrimEnd(TrimStart(s))
  }

  /** The input is the trimmed text framed on both sides by runs of
      whitespace: `trim` removes whitespace at the ends and nothing else. */
  lemma TrimIsFramedSlice(s: string)
    ensures exists a, b :: 0 <= a <= b <= |s| && Trim(s) == s[a..b]
                           && AllWhitespace(s[..a]) && AllWhitespace(s[b..])
  {
    var t := TrimStart(s);
    var r := TrimEnd(t);
    var a := |s| - |t|;
    var b := a + |r|;
    assert r == s[a..b];
    assert s[b..] == t[|r|..];
  }

  /** A trimmed string is empty exactly when the input is all whitespace, which
      is the "blank input" test of both send paths. */
  lemma TrimEmptyIffBlank(s: string)
    ensures Trim(s) == [] <==> AllWhitespace(s)
  {
    var t := TrimStart(s);
    if AllWhitespace(s) {
      BlankTrimsToEmpty(s);
    }
    if TrimEnd(t) == [] {
      // `t` is then all whitespace, yet cannot start with whitespace
      assert t[0..] == t;
      assert t == [];
      assert s[..|s|] == s;
    }
  }

  /** An all-whitespace string loses everything to `trimStart`. */
  lemma {:induction false} BlankTrimsToEmpty(s: string)
    requires AllWhitespace(s)
    ensures TrimStart(s) == []
  {
    if s != [] {
      assert AllWhitespace(s[1..]) by {
        forall i | 0 <= i < |s[1..]| ensures IsJsWhitespace(s[1..][i]) {
          assert s[1..][i] == s[i + 1];
        }
      }
      BlankTrimsToEmpty(s[1..]);
    }
  }
}
