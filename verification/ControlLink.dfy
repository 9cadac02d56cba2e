/**
 The control-channel client's shared state as a value, and what its critical sections do to it.
 Which thread enters which section when is the subject of ControlProtocol.
 */
module ControlLinks {
  import opened Common

  type Id = string
  type Conn = nat
  type Chan = nat

  datatype Error = Unreachable | Reported(code: string)

  datatype Response = Response(requestId: Id, success: bool, error: Option<Error>, result: string)

  /** What a lost connection puts into every channel still waiting; it carries no request id. */
  const Disconnected := Response("", false, Some(Unreachable), "")

  datatype Link = Link(conn: Option<Conn>, connected: bool, pending: map<Id, Chan>)

  /** The buffered content of each reply channel; its capacity is one. */
  type Boxes = map<Chan, seq<Response>>

  function Register(l: Link, id: Id, ch: Chan): Link {
    l.(pending := l.pending[id := ch])
  }

  function Unregister(l: Link, id: Id): Link {
    l.(pending := l.pending - {id})
  }

  function Install(l: Link, conn: Conn): Link {
    Link(Some(conn), true, map[])
  }

  /** The channel waiting for this answer leaves the map with it. */
  function Claim(l: Link, id: Id): (Link, Option<Chan>) {
    if id in l.pending then (Unregister(l, id), Some(l.pending[id])) else (l, None)
  }

  /** A send that does not block: into an empty channel, or not at all. */
  function TrySend(box: seq<Response>, r: Response): seq<Response> {
    if box == [] then [r] else box
  }

  function TellAll(boxes: Boxes, chans: set<Chan>): Boxes {
    map ch | ch in boxes :: if ch in chans then TrySend(boxes[ch], Disconnected) else boxes[ch]
  }

  /** The connection is gone: everyone waiting is told so. */
  function FailAll(l: Link, boxes: Boxes): (Link, Boxes) {
    (l.(connected := false, pending := map[]), TellAll(boxes, l.pending.Values))
  }

  lemma TellOneMore(boxes: Boxes, told: set<Chan>, ch: Chan)
    requires ch in boxes
    ensures TellAll(boxes, told)[ch := TrySend(TellAll(boxes, told)[ch], Disconnected)] == TellAll(boxes, told + {ch})
  {
  }

  lemma ValuesWithout(m: map<Id, Chan>, id: Id)
    requires id in m
    ensures m.Values == (m - {id}).Values + {m[id]}
  {
    forall ch | ch in m.Values ensures ch in (m - {id}).Values + {m[id]} {
      var i :| i in m && m[i] == ch;
      assert i == id || (i in m - {id} && (m - {id})[i] == ch);
    }
  }

  lemma TellNobody(boxes: Boxes)
    ensures TellAll(boxes, {}) == boxes
  {
  }
}
