/**
 * The vote server's in-memory state and its request handlers: the program
 * table, the voter map, and the socket events each handler emits. Every
 * handler runs to completion without waiting, so each is one state
 * transition of a `VoteServer` object.
 */
module Server {
  import opened Wrappers
  import opened JsValues
  import opened Catalog
  import opened Identity

  /** What the server pushes over its socket channel, in the order it pushes it. */
  datatype Event =
    | VoteUpdate(list: seq<Program>)  // `vote_update` to every connected client
    | ResetVotedStatus                 // `reset_voted_status` to every connected client
    | InitData(list: seq<Program>)    // `init_data` to a client that has just connected

  /** Why a request was refused. */
  datatype Failure = Incomplete | RepeatedVote | UnknownProgram

  /** The JSON body of a reply. */
  datatype Body =
    | Programs(list: seq<Program>)   // the program list itself
    | Accepted(list: seq<Program>)   // `{success: true, programs}`
    | Record(program: Program)       // the created or edited program
    | Done                           // `{success: true}`
    | ResetDone                      // `{success: true, message}`
    | Rejected(failure: Failure)     // `{error}`

  datatype Reply = Reply(status: int, body: Body)

  /** The five programs the server starts with. */
  function InitialPrograms(): (ps: seq<Program>)
    ensures |ps| == 5 && DistinctIds(ps)
    ensures forall j :: 0 <= j < |ps| ==> ps[j].id == j + 1 && ps[j].votes == 0
  {
    [ Program(1, Text("开场瑜伽舞：流动的韵律"), 0, Text("瑜伽")),
      Program(2, Text("普拉提器械展示：核心力量"), 0, Text("普拉提")),
      Program(3, Text("空中瑜伽：云端漫步"), 0, Text("瑜伽")),
      Program(4, Text("双人伴侣瑜伽：信任的力量"), 0, Text("瑜伽")),
      Program(5, Text("禅修与呼吸：宁静之夜"), 0, Text("冥想")) ]
  }

  /**
   * `findIndex(p => p.id === parseInt(idParam))`: NaN equals no id, so a
   * parameter without leading digits finds nothing.
   */
  function IndexOfRouteId(ps: seq<Program>, idParam: string): (r: Option<nat>)
    ensures r.Some? <==> ParseInt(idParam).Some? && exists j :: 0 <= j < |ps| && ps[j].id == ParseInt(idParam).value
    ensures r.Some? ==> r.value < |ps| && ps[r.value].id == ParseInt(idParam).value
  {
    match ParseInt(idParam)
    case None => None
    case Some(id) => FindIndex(ps, id)
  }

  class VoteServer {
    /** The program table, in display order. */
    var programs: seq<Program>
    /** Composite keys and user ids of everyone who has voted, each mapped to the program id voted for. */
    var userVotes: VoterMap
    /** Every event emitted so far. */
    var events: seq<Event>

    /** Program ids stay pairwise distinct, and only truthy values are ever voter keys. */
    ghost predicate Valid()
      reads this
    {
      DistinctIds(programs) && KeysTruthy(userVotes)
    }

    constructor ()
      ensures Valid()
      ensures programs == InitialPrograms() && userVotes == map[] && events == []
    {
      programs := InitialPrograms();
      userVotes := map[];
      events := [];
    }

    /** GET /api/programs. */
    method ListPrograms() returns (reply: Reply)
      ensures reply == Reply(200, Programs(programs))
    {
      reply := Reply(200, Programs(programs));
    }

    /** POST /api/programs: append a program with a fresh id and no votes. */
    method AddProgram(name: Field, category: Field) returns (reply: Reply)
      requires Valid()
      modifies this
      ensures Valid()
      ensures programs == old(programs) + [Program(NextId(old(programs)), name, 0, category)]
      ensures forall j :: 0 <= j < |old(programs)| ==> programs[|programs| - 1].id != programs[j].id
      ensures userVotes == old(userVotes)
      ensures events == old(events) + [VoteUpdate(programs)]
      ensures reply == Reply(201, Record(programs[|programs| - 1]))
    {
      var created := Program(NextId(programs), name, 0, category);
      NextIdKeepsIdsDistinct(programs, created);
      programs := programs + [created];
      events := events + [VoteUpdate(programs)];
      reply := Reply(201, Record(created));
    }

    /**
     * PUT /api/programs/:id: replace the name and category of the first
     * program with that id, and its tally when `votes` is neither null nor
     * absent. Nothing stops the new tally from being negative.
     */
    method EditProgram(idParam: string, name: Field, category: Field, votes: Option<int>) returns (reply: Reply)
      requires Valid()
      modifies this
      ensures Valid()
      ensures userVotes == old(userVotes)
      ensures var index := IndexOfRouteId(old(programs), idParam);
        index.None? ==>
        programs == old(programs) && events == old(events) && reply == Reply(404, Rejected(UnknownProgram))
      ensures var index := IndexOfRouteId(old(programs), idParam);
        index.Some? ==>
        var i := index.value;
        var was := old(programs)[i];
        var updated := Program(was.id, name, votes.GetOr(was.votes), category);
        && programs == old(programs)[i := updated]
        && TotalVotes(programs) == TotalVotes(old(programs)) - was.votes + updated.votes
        && events == old(events) + [VoteUpdate(programs)]
        && reply == Reply(200, Record(updated))
    {
      var index := IndexOfRouteId(programs, idParam);
      if index.Some? {
        var i := index.value;
        var updated := Program(programs[i].id, name, votes.GetOr(programs[i].votes), category);
        TotalAfterReplacing(programs, i, updated);
        programs := programs[i := updated];
        events := events + [VoteUpdate(programs)];
        return Reply(200, Record(updated));
      }
      reply := Reply(404, Rejected(UnknownProgram));
    }

    /**
     * DELETE /api/programs/:id: drop every program with that id, keep the
     * rest in order, and report success even when nothing matched. The
     * voter map is left alone.
     */
    method DeleteProgram(idParam: string) returns (reply: Reply)
      requires Valid()
      modifies this
      ensures Valid()
      ensures programs == (match ParseInt(idParam)
                           case None => old(programs)
                           case Some(id) => Without(old(programs), id))
      ensures userVotes == old(userVotes)
      ensures events == old(events) + [VoteUpdate(programs)]
      ensures reply == Reply(200, Done)
    {
      var target := ParseInt(idParam);
      if target.Some? {
        WithoutKeepsIdsDistinct(programs, target.value);
        programs := Without(programs, target.value);
      }
      events := events + [VoteUpdate(programs)];
      reply := Reply(200, Done);
    }

    /**
     * POST /api/reset: zero every tally in place, forget every voter, then
     * push the zeroed list and tell every client to forget its vote.
     */
    method Reset() returns (reply: Reply)
      requires Valid()
      modifies this
      ensures Valid()
      ensures |programs| == |old(programs)|
      ensures forall j :: 0 <= j < |programs| ==> programs[j] == old(programs)[j].(votes := 0)
      ensures TotalVotes(programs) == 0
      ensures userVotes == map[]
      ensures forall key, userId :: !HasVoted(userVotes, key, userId)
      ensures events == old(events) + [VoteUpdate(programs), ResetVotedStatus]
      ensures reply == Reply(200, ResetDone)
    {
      var i := 0;
      while i < |programs|
        invariant 0 <= i <= |programs| == |old(programs)|
        invariant forall j :: 0 <= j < i ==> programs[j] == old(programs)[j].(votes := 0)
        invariant forall j :: i <= j < |programs| ==> programs[j] == old(programs)[j]
        invariant userVotes == old(userVotes) && events == old(events)
      {
        programs := programs[i := programs[i].(votes := 0)];
        i := i + 1;
      }
      assert forall j :: 0 <= j < |programs| ==> programs[j].id == old(programs)[j].id;
      TotalOfZeroTallies(programs);
      userVotes := map[];
      events := events + [VoteUpdate(programs), ResetVotedStatus];
      reply := Reply(200, ResetDone);
    }

    /**
     * POST /api/vote. A request without a truthy program id or fingerprint
     * is incomplete (400). A voter whose composite key or user id is already
     * recorded is refused (403) before the program is even looked up. A vote
     * for an id no program carries is refused (404). Otherwise the program
     * gains exactly one vote, the voter is recorded, and the list is pushed.
     */
    method Vote(programId: Field, userId: Field, fingerprint: Field, ip: string, userAgent: Option<string>)
      returns (reply: Reply)
      requires Valid()
      modifies this
      ensures Valid()
      ensures !Truthy(programId) || !Truthy(fingerprint) ==> reply == Reply(400, Rejected(Incomplete))
      ensures Truthy(programId) && Truthy(fingerprint)
              && HasVoted(old(userVotes), CompositeKey(fingerprint, ip, userAgent), userId) ==>
        reply == Reply(403, Rejected(RepeatedVote))
      ensures Truthy(programId) && Truthy(fingerprint)
              && !HasVoted(old(userVotes), CompositeKey(fingerprint, ip, userAgent), userId)
              && Lookup(old(programs), programId).None? ==>
        reply == Reply(404, Rejected(UnknownProgram))
      ensures Truthy(programId) && Truthy(fingerprint)
              && !HasVoted(old(userVotes), CompositeKey(fingerprint, ip, userAgent), userId)
              && Lookup(old(programs), programId).Some? ==>
        reply.status == 200
      ensures reply.status != 200 ==>
        programs == old(programs) && userVotes == old(userVotes) && events == old(events)
      ensures reply.status == 200 ==>
        && Lookup(old(programs), programId).Some?
        && var i := Lookup(old(programs), programId).value;
        && |programs| == |old(programs)|
        && programs[i] == old(programs)[i].(votes := old(programs)[i].votes + 1)
        && (forall j :: 0 <= j < |programs| && j != i ==> programs[j] == old(programs)[j])
        && TotalVotes(programs) == TotalVotes(old(programs)) + 1
        && userVotes == Recorded(old(userVotes), CompositeKey(fingerprint, ip, userAgent), userId, programId.n)
        && events == old(events) + [VoteUpdate(programs)]
        && reply.body == Accepted(programs)
    {
      if !Truthy(programId) || !Truthy(fingerprint) {
        return Reply(400, Rejected(Incomplete));
      }
      var complexId := CompositeKey(fingerprint, ip, userAgent);
      if HasVoted(userVotes, complexId, userId) {
        return Reply(403, Rejected(RepeatedVote));
      }
      var found := Lookup(programs, programId);
      if found.Some? {
        Count(found.value, complexId, userId, programId.n);
        return Reply(200, Accepted(programs));
      }
      reply := Reply(404, Rejected(UnknownProgram));
    }

    /**
     * The accepted part of POST /api/vote: bump the found program's tally by
     * one, record the composite key and a truthy user id for the program, and
     * push the list.
     */
    method Count(i: nat, complexId: string, userId: Field, programId: int)
      requires Valid() && i < |programs| && complexId != ""
      modifies this
      ensures Valid()
      ensures programs == old(programs)[i := old(programs)[i].(votes := old(programs)[i].votes + 1)]
      ensures TotalVotes(programs) == TotalVotes(old(programs)) + 1
      ensures userVotes == Recorded(old(userVotes), complexId, userId, programId)
      ensures events == old(events) + [VoteUpdate(programs)]
    {
      var bumped := programs[i].(votes := programs[i].votes + 1);
      TotalAfterReplacing(programs, i, bumped);
      ghost var recorded := Recorded(userVotes, complexId, userId, programId);
      programs := programs[i := bumped];
      userVotes := userVotes[Text(complexId) := programId];
      if Truthy(userId) {
        userVotes := userVotes[userId := programId];
      }
      assert userVotes == recorded;
      events := events + [VoteUpdate(programs)];
    }

    /** A client connects: it alone is sent the current list. */
    method Connect()
      modifies this
      ensures programs == old(programs) && userVotes == old(userVotes)
      ensures events == old(events) + [InitData(programs)]
    {
      events := events + [InitData(programs)];
    }
  }

  // The two devices and the one user of the duplicate-vote story.
  const Phone := Text("unique_fp_123")
  const Tablet := Text("other_fp_456")
  const User := Text("user_abc")

  /**
   * A voter's first vote is accepted and raises the first program's tally
   * from 0 to 1; the same device is then refused, even for a program that
   * does not exist, and the tally stays at 1; a different device with the
   * same user id is refused too; after a reset the first device votes again.
   */
  method RepeatVoteScenario()
    returns (first: int, tally: int, again: int, tallyAfterRefusal: int, missingProgram: int, sameUser: int, afterReset: int)
    ensures first == 200 && tally == 1
    ensures again == 403 && tallyAfterRefusal == 1
    ensures missingProgram == 403 && sameUser == 403 && afterReset == 200
  {
    var server := new VoteServer();
    first, tally := FirstVote(server);
    again, tallyAfterRefusal, missingProgram, sameUser := RepeatedVotes(server);
    var r := server.Reset();
    assert server.programs[0].id == 1 && server.userVotes == map[];
    assert Lookup(server.programs, Num(1)) == Some(0);
    r := server.Vote(Num(1), Missing, Phone, "10.0.0.7", Some("Mobile"));
    afterReset := r.status;
  }

  /** The phone's first vote for program 1 on a freshly started server, with the user id sent. */
  method FirstVote(server: VoteServer) returns (first: int, tally: int)
    requires server.Valid() && server.programs == InitialPrograms() && server.userVotes == map[]
    modifies server
    ensures server.Valid() && |server.programs| == 5 && server.programs[0].id == 1
    ensures Text(CompositeKey(Phone, "10.0.0.7", Some("Mobile"))) in server.userVotes && User in server.userVotes
    ensures first == 200 && tally == 1 && server.programs[0].votes == 1
  {
    assert Lookup(server.programs, Num(1)) == Some(0);
    var r := server.Vote(Num(1), User, Phone, "10.0.0.7", Some("Mobile"));
    first := r.status;
    tally := server.programs[0].votes;
  }

  /** The phone votes again, then for a missing program; the tablet votes with the same user id. */
  method RepeatedVotes(server: VoteServer) returns (again: int, tallyAfterRefusal: int, missingProgram: int, sameUser: int)
    requires server.Valid() && |server.programs| == 5 && server.programs[0].id == 1 && server.programs[0].votes == 1
    requires Text(CompositeKey(Phone, "10.0.0.7", Some("Mobile"))) in server.userVotes && User in server.userVotes
    modifies server
    ensures server.Valid() && server.programs == old(server.programs)
    ensures again == 403 && tallyAfterRefusal == 1 && missingProgram == 403 && sameUser == 403
  {
    var r := server.Vote(Num(1), Missing, Phone, "10.0.0.7", Some("Mobile"));
    again := r.status;
    tallyAfterRefusal := server.programs[0].votes;
    r := server.Vote(Num(99), Missing, Phone, "10.0.0.7", Some("Mobile"));
    missingProgram := r.status;
    assert HasVoted(server.userVotes, CompositeKey(Tablet, "10.0.0.8", Some("Tablet")), User);
    r := server.Vote(Num(2), User, Tablet, "10.0.0.8", Some("Tablet"));
    sameUser := r.status;
  }
}
