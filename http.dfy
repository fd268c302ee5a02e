/** The webhook endpoint, reached with a JSON POST. Whether a post succeeds is a
    fixed property of the endpoint here; a post that fails is the request that threw. */
module Http {

  /** What a webhook receives. The bounce event is opaque apart from the bounce it
      reports; the inbox notice carries the three fields the notification builds. */
  datatype Payload =
    | NdrNotice(originalMessageId: string, errorCode: string)
    | InboxNotice(message: string, numNewMessages: nat, text: string)

  datatype Post = Post(url: string, payload: Payload)

  class Transport {
    /** Whether a post to the endpoint succeeds. */
    var reachable: bool
    /** Every request sent, in order, whether or not it succeeded. */
    var posts: seq<Post>

    constructor (reachable: bool)
      ensures this.reachable == reachable && posts == []
    {
      this.reachable := reachable;
      posts := [];
    }

    /** `axios.post(url, payload)`: `ok` is false exactly when the request throws. */
    method PostJson(url: string, payload: Payload) returns (ok: bool)
      modifies this
      ensures ok == reachable && reachable == old(reachable)
      ensures posts == old(posts) + [Post(url, payload)]
    {
      ok := reachable;
      posts := posts + [Post(url, payload)];
    }
  }
}
