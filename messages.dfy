/** The `{ role, content }` chat message shared by the page and the API route,
    and the role names both files use. */
module Messages {

  datatype Message = Message(role: string, content: string)

  /** Roles the page writes into its transcript. */
  const UserRole: string := "user"
  const AiRole: string := "ai"

  /** Roles the API route writes into the list it sends upstream. */
  const SystemRole: string := "system"
  const AssistantRole: string := "assistant"

  /** How many messages of `ms` carry role `role`. */
  function CountRole(ms: seq<Message>, role: string): (n: nat)
    ensures n <= |ms|
    ensures n == 0 <==> forall k :: 0 <= k < |ms| ==> ms[k].role != role
  {
    if ms == [] then 0
    else CountRole(ms[..|ms| - 1], role) + (if ms[|ms| - 1].role == role then 1 else 0)
  }

  /** Appending one message raises exactly the count of its own role. */
  lemma CountRoleAppend(ms: seq<Message>, m: Message, role: string)
    ensures CountRole(ms + [m], role) == CountRole(ms, role) + (if m.role == role then 1 else 0)
  {
    assert (ms + [m])[..|ms|] == ms;
  }
}
