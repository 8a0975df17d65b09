/** The decision part of the `message` handler: fail-fast validation of the
    parsed frame, the friendship gate, and persistence. Where the resulting
    frames go is decided with the registry, in module Server. */
module Relay {
  import opened Common
  import opened Gates

  const InvalidJson := "Invalid JSON format"
  const MissingFields := "Missing targetUserId or message"
  const NotFriends := "Target user is not in your friend list"
  /** The generic reply when something inside the handler threw. */
  const RelayError := "send message error"

  /** The result of `JSON.parse(data)` as far as the handler looks at it:
      a parse failure, the value `null` (whose destructuring throws a TypeError),
      or any other value with its `targetUserId` and `message` properties. */
  datatype Parsed = Unparseable | JsonNull | Fields(targetUserId: Option<UserId>, message: Option<string>)

  /** The record `messageService.sendMessage` returns. */
  datatype StoredMessage = StoredMessage(id: nat, sender: UserId, recipient: UserId, content: string, createdAt: Timestamp)

  /** The relationship and message-store collaborators as they answer for one message. */
  datatype Services = Services(
    checkFriendship: (UserId, UserId) -> Reply<bool>,
    sendMessage: (UserId, UserId, string) -> Reply<StoredMessage>)

  /** The frames the relay writes: `{error}`, `{success: true, message}` and
      `{fromUserId, message, time}`. */
  datatype Frame =
    | ErrorFrame(error: string)
    | Ack(saved: StoredMessage)
    | Delivery(fromUserId: UserId, message: string, time: Timestamp)

  /** Either an error reply for the sender alone, or a persisted message to forward. */
  datatype Plan = Refuse(error: string) | Forward(target: UserId, body: string, saved: StoredMessage)

  /** The handler's validation chain, in its order, up to the persistence call. */
  function RelayPlan(sender: UserId, data: Parsed, svc: Services): (p: Plan)
    ensures p.Forward? ==> p.target != "" && p.body != ""
    ensures p.Forward? ==> svc.checkFriendship(sender, p.target) == Returns(true)
    ensures p.Forward? ==> svc.sendMessage(sender, p.target, p.body) == Returns(p.saved)
  {
    match data
    case Unparseable => Refuse(InvalidJson)
    case JsonNull => Refuse(RelayError)
    case Fields(targetUserId, message) =>
      if !Truthy(targetUserId) || !Truthy(message) then Refuse(MissingFields)
      else
        match svc.checkFriendship(sender, targetUserId.value)
        case Throws => Refuse(RelayError)
        case Returns(isFriend) =>
          if !isFriend then Refuse(NotFriends)
          else
            match svc.sendMessage(sender, targetUserId.value, message.value)
            case Throws => Refuse(RelayError)
            case Returns(saved) => Forward(targetUserId.value, message.value, saved)
  }

  /** The requested recipient, "" when absent. */
  function Target(data: Parsed): UserId {
    if data.Fields? && data.targetUserId.Some? then data.targetUserId.value else ""
  }

  /** The requested message body, "" when absent. */
  function Body(data: Parsed): string {
    if data.Fields? && data.message.Some? then data.message.value else ""
  }

  /** The relay policy as an ordered list of requirements. */
  function RelayChecks(sender: UserId, data: Parsed, svc: Services): seq<Check> {
    var target, body := Target(data), Body(data);
    var friendship := svc.checkFriendship(sender, target);
    [ Check(!data.Unparseable?, InvalidJson),
      Check(!data.JsonNull?, RelayError),
      Check(target != "" && body != "", MissingFields),
      Check(friendship.Returns?, RelayError),
      Check(friendship != Returns(false), NotFriends),
      Check(svc.sendMessage(sender, target, body).Returns?, RelayError) ]
  }

  /** The relay refuses with the reason of the first requirement that fails, and
      forwards the stored record exactly when all of them hold. */
  lemma RelayFollowsPolicy(sender: UserId, data: Parsed, svc: Services)
    ensures var p, first := RelayPlan(sender, data, svc), FirstFailure(RelayChecks(sender, data, svc));
      && (first.Some? ==> p == Refuse(first.value))
      && (first.None? ==>
            p.Forward? && p.target == Target(data) && p.body == Body(data)
            && svc.sendMessage(sender, Target(data), Body(data)) == Returns(p.saved))
  {
    var cs := RelayChecks(sender, data, svc);
    var target, body := Target(data), Body(data);
    if data.Unparseable? {
      FirstFailureReportsFirst(cs, 0);
    } else if data.JsonNull? {
      FirstFailureReportsFirst(cs, 1);
    } else if target == "" || body == "" {
      FirstFailureReportsFirst(cs, 2);
    } else if svc.checkFriendship(sender, target).Throws? {
      FirstFailureReportsFirst(cs, 3);
    } else if svc.checkFriendship(sender, target) == Returns(false) {
      FirstFailureReportsFirst(cs, 4);
    } else if svc.sendMessage(sender, target, body).Throws? {
      FirstFailureReportsFirst(cs, 5);
    }
  }

  /** Non-friends are refused with the friend-list error and nothing is persisted
      or forwarded, once the frame itself is well formed. */
  lemma NonFriendsRefused(sender: UserId, target: UserId, body: string, svc: Services)
    requires target != "" && body != ""
    requires svc.checkFriendship(sender, target) == Returns(false)
    ensures RelayPlan(sender, Fields(Some(target), Some(body)), svc) == Refuse(NotFriends)
  {
  }

  /** A throwing collaborator gives the generic error, never a forward. */
  lemma CollaboratorFailureRefused(sender: UserId, target: UserId, body: string, svc: Services)
    requires target != "" && body != ""
    requires svc.checkFriendship(sender, target).Throws?
          || (svc.checkFriendship(sender, target) == Returns(true) && svc.sendMessage(sender, target, body).Throws?)
    ensures RelayPlan(sender, Fields(Some(target), Some(body)), svc) == Refuse(RelayError)
  {
  }
}
