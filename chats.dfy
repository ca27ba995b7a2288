/** The result-shaping rule of `fetchUserChats` in lib/api.ts: the chats a
    user sees are those where the user is the buyer or the product owner and
    is listed in `visibility`; a chat with oneself wins outright, and no chat
    at all is an error. The chats collection is a parameter; the two
    `listDocuments` queries are filters over it in collection order. */
module Chats {
  import opened Wrappers
  import opened ErrorMessages

  /** The fields of `ChatDocument` (types/appwriteTypes.ts) the rule reads. */
  datatype ChatDocument = ChatDocument(
    id: string, productId: string, buyerId: string, productOwnerId: string, visibility: seq<string>)

  datatype Role = Buyer | ProductOwner

  /** The two queries: `Query.equal("buyerId" | "productOwnerId", userId)` and
      `Query.equal("visibility", userId)`, which on an array attribute
      matches when the array holds the value. */
  predicate Listed(chat: ChatDocument, userId: string, role: Role) {
    && (match role case Buyer => chat.buyerId == userId case ProductOwner => chat.productOwnerId == userId)
    && userId in chat.visibility
  }

  /** One `listDocuments` call: the matching documents, in collection order. */
  function ListChats(collection: seq<ChatDocument>, userId: string, role: Role): (r: seq<ChatDocument>)
    ensures forall c :: c in r <==> c in collection && Listed(c, userId, role)
  {
    if collection == [] then []
    else
      var rest := ListChats(collection[1..], userId, role);
      assert forall c :: c in collection <==> c == collection[0] || c in collection[1..];
      if Listed(collection[0], userId, role) then [collection[0]] + rest else rest
  }

  predicate IsSelfChat(chat: ChatDocument, userId: string) {
    chat.buyerId == userId && chat.productOwnerId == userId
  }

  /** `chats.find(chat => chat.buyerId === userId && chat.productOwnerId === userId)`,
      as the index of the first such chat. */
  function FindSelfChat(chats: seq<ChatDocument>, userId: string): (r: Option<nat>)
    ensures r.Some? ==> && r.value < |chats| && IsSelfChat(chats[r.value], userId)
                        && forall j :: 0 <= j < r.value ==> !IsSelfChat(chats[j], userId)
    ensures r.None? ==> forall j :: 0 <= j < |chats| ==> !IsSelfChat(chats[j], userId)
  {
    if chats == [] then None
    else if IsSelfChat(chats[0], userId) then Some(0)
    else match FindSelfChat(chats[1..], userId)
      case Some(i) => Some(i + 1)
      case None => None
  }

  const InvalidUserId: string := "Invalid user ID"

  /** `fetchUserChats(userId, lang)`. Errors carry the message that
      `getErrorMessage` makes of the thrown text; a successful answer is
      non-empty and lists only chats of the user that the user can see. */
  function FetchUserChats(userId: string, collection: seq<ChatDocument>, lang: string)
    : (r: Result<seq<ChatDocument>>)
    ensures userId == "" ==> r.Err?
    ensures r.Ok? ==> && r.value != []
                      && forall c :: c in r.value ==>
                           c in collection && (Listed(c, userId, Buyer) || Listed(c, userId, ProductOwner))
  {
    if userId == "" then Err(GetErrorMessage(InvalidUserId, lang))
    else
      var combined := ListChats(collection, userId, Buyer) + ListChats(collection, userId, ProductOwner);
      match FindSelfChat(combined, userId)
      case Some(i) => Ok([combined[i]])
      case None =>
        if |combined| == 0 then Err(GetErrorMessage(KeyName(ChatNotFound), lang))
        else Ok(combined)
  }

  /** An empty user id fails before any query, with "Unknown error", since
      "Invalid user ID" is not a key of the message table. */
  lemma EmptyUserIdFails(collection: seq<ChatDocument>, lang: string)
    ensures FetchUserChats("", collection, lang) == Err(UnknownError)
  {
    UnknownKeyGivesFallback(InvalidUserId, lang);
  }

  /** A chat the user holds with themselves and can see. */
  predicate VisibleSelfChat(chat: ChatDocument, userId: string) {
    IsSelfChat(chat, userId) && userId in chat.visibility
  }

  /** The buyer query returns every visible self chat, so the first self chat
      it returns is the first visible self chat of the collection. */
  lemma {:induction false} FirstSelfChatOfBuyers(collection: seq<ChatDocument>, userId: string, i: nat)
    requires i < |collection| && VisibleSelfChat(collection[i], userId)
    requires forall j :: 0 <= j < i ==> !VisibleSelfChat(collection[j], userId)
    ensures var buyers := ListChats(collection, userId, Buyer);
            FindSelfChat(buyers, userId).Some? && buyers[FindSelfChat(buyers, userId).value] == collection[i]
    decreases i
  {
    var rest := ListChats(collection[1..], userId, Buyer);
    if i == 0 {
      assert Listed(collection[0], userId, Buyer);
    } else {
      assert VisibleSelfChat(collection[1..][i - 1], userId);
      assert forall j :: 0 <= j < i - 1 ==> !VisibleSelfChat(collection[1..][j], userId) by {
        forall j | 0 <= j < i - 1 ensures !VisibleSelfChat(collection[1..][j], userId) {
          assert collection[1..][j] == collection[j + 1];
        }
      }
      FirstSelfChatOfBuyers(collection[1..], userId, i - 1);
      assert !VisibleSelfChat(collection[0], userId);
    }
  }

  /** A self chat found in a prefix is also the first one of any extension. */
  lemma FindSelfChatInPrefix(a: seq<ChatDocument>, b: seq<ChatDocument>, userId: string)
    requires FindSelfChat(a, userId).Some?
    ensures FindSelfChat(a + b, userId) == FindSelfChat(a, userId)
  {
    var k := FindSelfChat(a, userId).value;
    assert (a + b)[k] == a[k];
  }

  /** A chat of the user with themselves that the queries return is the whole
      answer: the first visible self chat of the collection, alone. */
  lemma SelfChatWins(userId: string, collection: seq<ChatDocument>, lang: string, c: ChatDocument)
    requires userId != "" && c in collection && VisibleSelfChat(c, userId)
    ensures var r := FetchUserChats(userId, collection, lang);
            && r.Ok?
            && exists i :: && 0 <= i < |collection| && r.value == [collection[i]]
                           && VisibleSelfChat(collection[i], userId)
                           && forall j :: 0 <= j < i ==> !VisibleSelfChat(collection[j], userId)
  {
    var i := 0;
    while !VisibleSelfChat(collection[i], userId)
      invariant 0 <= i < |collection|
      invariant c in collection[i..]
      invariant forall j :: 0 <= j < i ==> !VisibleSelfChat(collection[j], userId)
      decreases |collection| - i
    {
      assert collection[i..] == [collection[i]] + collection[i + 1..];
      i := i + 1;
    }
    var buyers := ListChats(collection, userId, Buyer);
    FirstSelfChatOfBuyers(collection, userId, i);
    FindSelfChatInPrefix(buyers, ListChats(collection, userId, ProductOwner), userId);
    assert (buyers + ListChats(collection, userId, ProductOwner))[FindSelfChat(buyers, userId).value] == collection[i];
  }

  /** Without a self chat the answer is the buyer chats followed by the owner
      chats, and "chatNotFound" exactly when both are empty. */
  lemma NoSelfChatConcatenates(userId: string, collection: seq<ChatDocument>, lang: string)
    requires userId != ""
    requires forall c :: c in collection && userId in c.visibility ==> !IsSelfChat(c, userId)
    ensures var combined := ListChats(collection, userId, Buyer) + ListChats(collection, userId, ProductOwner);
            FetchUserChats(userId, collection, lang)
            == if combined == [] then Err(GetErrorMessage(KeyName(ChatNotFound), lang)) else Ok(combined)
  {
    var combined := ListChats(collection, userId, Buyer) + ListChats(collection, userId, ProductOwner);
    assert forall j :: 0 <= j < |combined| ==> combined[j] in collection && userId in combined[j].visibility;
  }

  /** The user has no chat at all exactly when the answer is "chatNotFound". */
  lemma NotFoundIffNoChat(userId: string, collection: seq<ChatDocument>, lang: string)
    requires userId != ""
    ensures FetchUserChats(userId, collection, lang) == Err(GetErrorMessage(KeyName(ChatNotFound), lang))
            <==> forall c :: c in collection ==> !Listed(c, userId, Buyer) && !Listed(c, userId, ProductOwner)
  {
    var buyers := ListChats(collection, userId, Buyer);
    var owners := ListChats(collection, userId, ProductOwner);
    if buyers != [] {
      assert buyers[0] in buyers;
    }
    if owners != [] {
      assert owners[0] in owners;
    }
  }
}
