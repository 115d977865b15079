/**
  Network ids (`getNetworkId` in server/src/classes/contexts/contextMap.ts):
  `[store][type][id]`, used both as a registered context's queue name and as
  the `replyTo` address of the requests it issues.
 */
module NetworkIds {
  import opened Wrappers

  /** `[s]` */
  function Bracket(s: string): string {
    "[" + s + "]"
  }

  /** How a template literal renders an optional context id: an absent one reads `undefined`. */
  function Render(contextId: Option<string>): string {
    if contextId.Some? then contextId.value else "undefined"
  }

  /** `!!contextId` */
  predicate HasContextId(contextId: Option<string>) {
    contextId.Some? && contextId.value != ""
  }

  /**
    `getNetworkId(context, contextId)` inside the store `storeId`. `contextType`
    is the context definition's `commonLanguage.type`, or None when no context
    is given.
   */
  function GetNetworkId(storeId: string, contextType: Option<string>, contextId: Option<string>): string {
    if contextType.None? then
      Bracket(storeId) + Bracket(Render(contextId))
    else
      Bracket(storeId) + Bracket(contextType.value) + (if HasContextId(contextId) then Bracket(contextId.value) else "")
  }

  /** A segment that holds no bracket. */
  predicate Plain(s: string) {
    forall i :: 0 <= i < |s| ==> s[i] != '[' && s[i] != ']'
  }

  /** Bracketed segments one after another. */
  function Join(parts: seq<string>): string
    decreases |parts|
  {
    if parts == [] then "" else Bracket(parts[0]) + Join(parts[1..])
  }

  /** The position of the first `]` at or after `i`. */
  function CloseAt(s: string, i: nat): (r: Option<nat>)
    requires i <= |s|
    ensures r.Some? ==> i <= r.value < |s| && s[r.value] == ']' && forall k :: i <= k < r.value ==> s[k] != ']'
    ensures r.None? ==> forall k :: i <= k < |s| ==> s[k] != ']'
    decreases |s| - i
  {
    if i == |s| then None
    else if s[i] == ']' then Some(i)
    else CloseAt(s, i + 1)
  }

  /** Reads a network id back into its segments; None when it is not a run of bracketed segments. */
  function Segments(s: string): Option<seq<string>>
    decreases |s|
  {
    if s == [] then Some([])
    else if s[0] != '[' then None
    else
      match CloseAt(s, 1)
      case None => None
      case Some(j) =>
        match Segments(s[j + 1..])
        case None => None
        case Some(rest) => Some([s[1..j]] + rest)
  }

  /** Reading back bracket-free segments recovers them. */
  lemma {:induction false} SegmentsOfJoin(parts: seq<string>)
    requires forall i :: 0 <= i < |parts| ==> Plain(parts[i])
    ensures Segments(Join(parts)) == Some(parts)
    decreases |parts|
  {
    if parts != [] {
      var p, s := parts[0], Join(parts);
      assert Plain(p);
      assert s == "[" + p + "]" + Join(parts[1..]);
      assert s[|p| + 1] == ']';
      forall k | 1 <= k < |p| + 1 ensures s[k] != ']' {
        assert s[k] == p[k - 1];
      }
      var j := CloseAt(s, 1);
      assert j == Some(|p| + 1);
      assert s[1..|p| + 1] == p;
      assert s[|p| + 2..] == Join(parts[1..]);
      SegmentsOfJoin(parts[1..]);
      assert [p] + parts[1..] == parts;
    }
  }

  /** The segments of a network id: store, type and, when truthy, the context id; or store and id without a context. */
  function NetworkIdParts(storeId: string, contextType: Option<string>, contextId: Option<string>): seq<string> {
    if contextType.None? then [storeId, Render(contextId)]
    else if HasContextId(contextId) then [storeId, contextType.value, contextId.value]
    else [storeId, contextType.value]
  }

  lemma JoinTwo(a: string, b: string)
    ensures Join([a, b]) == Bracket(a) + Bracket(b)
  {
    assert [a, b][1..] == [b];
    assert [b][1..] == [];
    assert Join([b]) == Bracket(b) + "";
  }

  lemma JoinThree(a: string, b: string, c: string)
    ensures Join([a, b, c]) == Bracket(a) + Bracket(b) + Bracket(c)
  {
    assert [a, b, c][1..] == [b, c];
    JoinTwo(b, c);
    assert Join([a, b, c]) == Bracket(a) + (Bracket(b) + Bracket(c));
  }

  /**
    The network id is built segment by segment, for any names: with no
    context it is `[store][contextId]`, with one `[store][type]` followed by
    `[contextId]` only when the id is truthy.
   */
  lemma NetworkIdBuilt(storeId: string, contextType: Option<string>, contextId: Option<string>)
    ensures GetNetworkId(storeId, contextType, contextId) == Join(NetworkIdParts(storeId, contextType, contextId))
  {
    if contextType.None? {
      JoinTwo(storeId, Render(contextId));
    } else if HasContextId(contextId) {
      JoinThree(storeId, contextType.value, contextId.value);
    } else {
      JoinTwo(storeId, contextType.value);
      assert GetNetworkId(storeId, contextType, contextId) == Bracket(storeId) + Bracket(contextType.value) + "";
    }
  }

  /** With bracket-free names a network id reads back into exactly its segments. */
  lemma NetworkIdReadsBack(storeId: string, contextType: Option<string>, contextId: Option<string>)
    requires Plain(storeId) && Plain(Render(contextId))
    requires contextType.Some? ==> Plain(contextType.value)
    ensures Segments(GetNetworkId(storeId, contextType, contextId)) == Some(NetworkIdParts(storeId, contextType, contextId))
  {
    NetworkIdBuilt(storeId, contextType, contextId);
    SegmentsOfJoin(NetworkIdParts(storeId, contextType, contextId));
  }

  /**
    Without the bracket-free assumption two different contexts of one store
    can share a queue: the type `A][B` with no id, and the type `A` with id `B`.
   */
  lemma BracketedNamesCollide()
    ensures GetNetworkId("s", Some("A][B"), None) == GetNetworkId("s", Some("A"), Some("B")) == "[s][A][B]"
  {
    NetworkIdBuilt("s", Some("A][B"), None);
    NetworkIdBuilt("s", Some("A"), Some("B"));
  }

  /**
    Two registrations of a context in one store get the same queue only when
    they have the same type and, with truthy ids, the same id (bracket-free
    names assumed). A missing id and an empty one share the queue `[store][type]`.
   */
  lemma NetworkIdDistinguishes(storeId: string, t1: string, id1: Option<string>, t2: string, id2: Option<string>)
    requires Plain(storeId) && Plain(t1) && Plain(t2) && Plain(Render(id1)) && Plain(Render(id2))
    requires GetNetworkId(storeId, Some(t1), id1) == GetNetworkId(storeId, Some(t2), id2)
    ensures t1 == t2
    ensures HasContextId(id1) <==> HasContextId(id2)
    ensures HasContextId(id1) ==> id1 == id2
  {
    NetworkIdBuilt(storeId, Some(t1), id1);
    NetworkIdBuilt(storeId, Some(t2), id2);
    NetworkIdReadsBack(storeId, Some(t1), id1);
    NetworkIdReadsBack(storeId, Some(t2), id2);
    var p1 := NetworkIdParts(storeId, Some(t1), id1);
    var p2 := NetworkIdParts(storeId, Some(t2), id2);
    assert p1 == p2;
    assert p1[1] == t1 && p2[1] == t2;
    assert |p1| == 3 <==> HasContextId(id1);
  }
}
