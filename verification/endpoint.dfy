/** The client's view of its JSON-RPC endpoint. The client delegates every exchange with
    the server to the endpoint and keeps no state of its own, so the endpoint is modelled
    only by what the client can observe: the replies the server gives, one per request
    and in order, and the record of what the client asked of it. How the endpoint frames,
    sends and matches messages is not part of this model. */
module Endpoints {
  import opened Results
  import opened Json

  /** One thing the client asked of the endpoint. */
  datatype Event =
    | Started
    | Stopped
    | Called(name: string, params: Members, reply: Result<Value>)
    | Notified(name: string, params: Members)

  class Endpoint {
    /** Everything the client has asked of the endpoint, oldest first. */
    ghost var trace: seq<Event>
    /** The replies the server will give to the coming requests, in order: a parsed result,
        or the error the endpoint raises in its place. */
    var replies: seq<Result<Value>>

    constructor(replies: seq<Result<Value>>)
      ensures this.trace == [] && this.replies == replies
    {
      this.trace := [];
      this.replies := replies;
    }

    /** What the next request will return; once the server has nothing more to say, the
        request fails. */
    function NextReply(): Result<Value>
      reads this
    {
      if replies == [] then Err(EndpointError("connection closed")) else replies[0]
    }

    /** The replies left once the next request has been answered. */
    function Remaining(): seq<Result<Value>>
      reads this
    {
      if replies == [] then [] else replies[1..]
    }

    method Start()
      modifies this
      ensures trace == old(trace) + [Started]
      ensures replies == old(replies)
    {
      trace := trace + [Started];
    }

    method Stop()
      modifies this
      ensures trace == old(trace) + [Stopped]
      ensures replies == old(replies)
    {
      trace := trace + [Stopped];
    }

    /** Sends one request and waits for its reply, which is returned as it was received;
        an error reply is raised. */
    method CallMethod(name: string, params: Members) returns (reply: Result<Value>)
      modifies this
      ensures reply == old(NextReply())
      ensures replies == old(Remaining())
      ensures trace == old(trace) + [Called(name, params, reply)]
    {
      reply := NextReply();
      replies := Remaining();
      trace := trace + [Called(name, params, reply)];
    }

    /** Sends one notification; nothing comes back. */
    method SendNotification(name: string, params: Members)
      modifies this
      ensures trace == old(trace) + [Notified(name, params)]
      ensures replies == old(replies)
    {
      trace := trace + [Notified(name, params)];
    }
  }
}
