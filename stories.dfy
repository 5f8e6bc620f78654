/** The HTTP handler for saved stories. A request is routed on its method
    and on the `userId` and `id` query parameters; the `saved_stories` table
    is a map from the serial id to a row, and every read and write is scoped
    to the pair (id, user). The creation time is a counter that grows with
    every insert. */
module Stories {
  import opened Wrappers
  import opened Text

  const UserIdRequired := "userId is required"
  const NotFound := "Story not found"
  const TitleAndContentRequired := "title and content are required"
  const IdRequired := "Story id is required"
  const NotFoundOrUnauthorized := "Story not found or unauthorized"
  const MethodNotAllowed := "Method not allowed"
  const InternalError := "Internal server error"

  datatype Row = Row(userId: string, title: string, content: string, category: Option<string>, createdAt: nat)

  /** A row together with its id, as `RETURNING *` and `SELECT *` give it. */
  datatype Story = Story(id: nat, row: Row)

  /** The JSON body of a POST or PUT; an absent field is `None`. */
  datatype Body = Body(title: Option<string>, content: Option<string>, category: Option<string>)

  /** The parts of a request the handler reads; a body of `None` is one that
      `request.json()` cannot parse. */
  datatype Request = Request(verb: string, userId: Option<string>, id: Option<string>, body: Option<Body>)

  datatype Payload =
    | NoContent
    | Error(message: string)
    | One(story: Story)
    | Many(stories: seq<Story>)
    | Saved(story: Story)
    | Deleted

  datatype Response = Response(status: nat, payload: Payload)

  /** The table operations a valid request leads to, each scoped to `user`. */
  datatype Op =
    | FetchOne(user: string, id: nat)
    | FetchAll(user: string)
    | Insert(user: string, title: string, content: string, category: Option<string>)
    | Edit(user: string, id: nat, patch: Body)
    | Remove(user: string, id: nat)

  /** Either an answer decided from the request alone, or an operation to run. */
  datatype Plan = Reply(response: Response) | Run(op: Op)

  /** JavaScript truthiness of a string that may be `null`: present and non-empty. */
  predicate Given(p: Option<string>)
  {
    p.Some? && p.value != ""
  }

  const ServerError := Reply(Response(500, Error(InternalError)))

  /** The request validation of the handler. An `id` that is not a decimal
      integer makes the database reject the query, which the handler turns
      into a 500, as it does an unparsable body. */
  function PlanFor(req: Request): (p: Plan)
    ensures req.verb == "OPTIONS" ==> p == Reply(Response(200, NoContent))
    ensures req.verb != "OPTIONS" && !Given(req.userId) ==>
      p == Reply(Response(400, Error(UserIdRequired)))
    ensures p.Run? ==> req.verb != "OPTIONS" && Given(req.userId) && p.op.user == req.userId.value
    ensures p.Run? && p.op.Insert? ==>
      && req.verb == "POST" && req.body.Some?
      && Given(req.body.value.title) && Given(req.body.value.content)
      && p.op.title == req.body.value.title.value && p.op.content == req.body.value.content.value
      && p.op.category == (if Given(req.body.value.category) then req.body.value.category else None)
    ensures req.verb == "POST" && Given(req.userId) && req.body.Some?
            && !(Given(req.body.value.title) && Given(req.body.value.content)) ==>
      p == Reply(Response(400, Error(TitleAndContentRequired)))
    ensures (req.verb == "PUT" || req.verb == "DELETE") && Given(req.userId) && !Given(req.id) ==>
      p == Reply(Response(400, Error(IdRequired)))
    ensures p.Run? && (p.op.FetchOne? || p.op.Edit? || p.op.Remove?) ==>
      Given(req.id) && ParseDecimal(req.id.value) == Some(p.op.id)
    ensures p.Run? && p.op.Edit? ==> req.verb == "PUT" && req.body == Some(p.op.patch)
    ensures p.Run? && p.op.Remove? ==> req.verb == "DELETE"
    ensures p.Run? && (p.op.FetchOne? || p.op.FetchAll?) ==> req.verb == "GET"
    ensures p.Run? && p.op.FetchAll? ==> !Given(req.id)
    ensures Given(req.userId) && req.verb !in {"GET", "POST", "PUT", "DELETE", "OPTIONS"} ==>
      p == Reply(Response(405, Error(MethodNotAllowed)))
    // Conversely, each valid request runs its operation.
    ensures req.verb == "GET" && Given(req.userId) && !Given(req.id) ==>
      p == Run(FetchAll(req.userId.value))
    ensures req.verb == "GET" && Given(req.userId) && Given(req.id) && ParseDecimal(req.id.value).Some? ==>
      p == Run(FetchOne(req.userId.value, ParseDecimal(req.id.value).value))
    ensures req.verb == "POST" && Given(req.userId) && req.body.Some?
            && Given(req.body.value.title) && Given(req.body.value.content) ==>
      p.Run? && p.op.Insert?
    ensures req.verb == "PUT" && Given(req.userId) && Given(req.id) && req.body.Some?
            && ParseDecimal(req.id.value).Some? ==>
      p == Run(Edit(req.userId.value, ParseDecimal(req.id.value).value, req.body.value))
    ensures req.verb == "DELETE" && Given(req.userId) && Given(req.id) && ParseDecimal(req.id.value).Some? ==>
      p == Run(Remove(req.userId.value, ParseDecimal(req.id.value).value))
    // The 500 reply: an unparsable body of a POST or of a PUT with an id, or
    // an id that is not a number, and nothing else.
    ensures p == ServerError <==>
      && req.verb != "OPTIONS" && Given(req.userId)
      && (|| (req.verb == "POST" && req.body.None?)
          || (req.verb == "PUT" && Given(req.id) && req.body.None?)
          || ((req.verb == "GET" || req.verb == "PUT" || req.verb == "DELETE")
              && Given(req.id) && ParseDecimal(req.id.value).None?))
  {
    if req.verb == "OPTIONS" then Reply(Response(200, NoContent))
    else if !Given(req.userId) then Reply(Response(400, Error(UserIdRequired)))
    else
      var user := req.userId.value;
      if req.verb == "GET" then
        if Given(req.id) then
          match ParseDecimal(req.id.value)
          case None => ServerError
          case Some(id) => Run(FetchOne(user, id))
        else Run(FetchAll(user))
      else if req.verb == "POST" then
        match req.body
        case None => ServerError
        case Some(b) =>
          if !Given(b.title) || !Given(b.content) then Reply(Response(400, Error(TitleAndContentRequired)))
          else Run(Insert(user, b.title.value, b.content.value, if Given(b.category) then b.category else None))
      else if req.verb == "PUT" then
        if !Given(req.id) then Reply(Response(400, Error(IdRequired)))
        else
          match req.body
          case None => ServerError
          case Some(b) =>
            match ParseDecimal(req.id.value)
            case None => ServerError
            case Some(id) => Run(Edit(user, id, b))
      else if req.verb == "DELETE" then
        if !Given(req.id) then Reply(Response(400, Error(IdRequired)))
        else
          match ParseDecimal(req.id.value)
          case None => ServerError
          case Some(id) => Run(Remove(user, id))
      else Reply(Response(405, Error(MethodNotAllowed)))
  }

  /** The row `id` exists and belongs to `user`: the `WHERE id = … AND
      user_id = …` of every statement. */
  predicate Owns(rows: map<nat, Row>, id: nat, user: string)
  {
    id in rows && rows[id].userId == user
  }

  /** `COALESCE(new, old)` on each of title, content and category: a field
      absent from the patch keeps its value, a present one (even empty)
      replaces it. Owner and creation time never change. */
  function ApplyPatch(r: Row, patch: Body): (r': Row)
    ensures r'.userId == r.userId && r'.createdAt == r.createdAt
    ensures patch.title.None? ==> r'.title == r.title
    ensures patch.title.Some? ==> r'.title == patch.title.value
    ensures patch.content.None? ==> r'.content == r.content
    ensures patch.content.Some? ==> r'.content == patch.content.value
    ensures patch.category.None? ==> r'.category == r.category
    ensures patch.category.Some? ==> r'.category == patch.category
  {
    Row(r.userId,
        if patch.title.Some? then patch.title.value else r.title,
        if patch.content.Some? then patch.content.value else r.content,
        if patch.category.Some? then patch.category else r.category,
        r.createdAt)
  }

  /** Applying the same patch twice is applying it once, and the empty patch
      changes nothing. */
  lemma PatchIdempotent(r: Row, patch: Body)
    ensures ApplyPatch(ApplyPatch(r, patch), patch) == ApplyPatch(r, patch)
    ensures ApplyPatch(r, Body(None, None, None)) == r
  {
  }

  /** The stories of `user` whose id is below `bound`, highest id first. */
  function ListOwned(rows: map<nat, Row>, user: string, bound: nat): (r: seq<Story>)
    ensures forall k :: 0 <= k < |r| ==>
      r[k].id < bound && Owns(rows, r[k].id, user) && rows[r[k].id] == r[k].row
    ensures forall k, l :: 0 <= k < l < |r| ==> r[k].id > r[l].id
    ensures forall id :: 0 <= id < bound && Owns(rows, id, user) ==> Story(id, rows[id]) in r
  {
    if bound == 0 then []
    else
      var rest := ListOwned(rows, user, bound - 1);
      if Owns(rows, bound - 1, user) then [Story(bound - 1, rows[bound - 1])] + rest else rest
  }

  /** Later ids were created later. */
  predicate CreatedInIdOrder(rows: map<nat, Row>)
  {
    forall i, j :: i in rows && j in rows && i < j ==> rows[i].createdAt < rows[j].createdAt
  }

  /** Listing by descending id is listing by descending creation time, the
      `ORDER BY created_at DESC` of the list query. */
  lemma {:induction false} ListNewestFirst(rows: map<nat, Row>, user: string, bound: nat)
    requires CreatedInIdOrder(rows)
    ensures var r := ListOwned(rows, user, bound);
      forall k, l :: 0 <= k < l < |r| ==> r[k].row.createdAt > r[l].row.createdAt
  {
    var r := ListOwned(rows, user, bound);
    forall k, l | 0 <= k < l < |r| ensures r[k].row.createdAt > r[l].row.createdAt {
      assert r[k].row == rows[r[k].id] && r[l].row == rows[r[l].id];
    }
  }

  /** The `saved_stories` table with its id sequence and clock. */
  class StoryTable {
    var rows: map<nat, Row>
    var nextId: nat
    var clock: nat

    /** Ids come from a sequence that starts at 1; creation times come from
        the clock and grow with the id. */
    ghost predicate Valid()
      reads this
    {
      && 1 <= nextId
      && (forall id :: id in rows ==> 1 <= id < nextId && rows[id].createdAt < clock)
      && CreatedInIdOrder(rows)
    }

    constructor ()
      ensures Valid() && rows == map[] && nextId == 1 && clock == 0
    {
      rows := map[];
      nextId := 1;
      clock := 0;
    }

    /** `SELECT * … WHERE id = … AND user_id = …`. */
    function Lookup(user: string, id: nat): (r: Option<Story>)
      reads this
      ensures r.Some? <==> Owns(rows, id, user)
      ensures r.Some? ==> r.value == Story(id, rows[id])
    {
      if Owns(rows, id, user) then Some(Story(id, rows[id])) else None
    }

    /** `SELECT * … WHERE user_id = … ORDER BY created_at DESC`: exactly the
        caller's rows, newest first. */
    function ListFor(user: string): (r: seq<Story>)
      reads this
      requires Valid()
      ensures forall k :: 0 <= k < |r| ==> Owns(rows, r[k].id, user) && r[k].row == rows[r[k].id]
      ensures forall id :: Owns(rows, id, user) ==> Story(id, rows[id]) in r
      ensures forall k, l :: 0 <= k < l < |r| ==> r[k].row.createdAt > r[l].row.createdAt
    {
      ListNewestFirst(rows, user, nextId);
      ListOwned(rows, user, nextId)
    }

    /** `INSERT … RETURNING *`: one new row owned by `user`, under the next
        id and at the current time. */
    method Insert(user: string, title: string, content: string, category: Option<string>) returns (s: Story)
      requires Valid()
      modifies this
      ensures Valid()
      ensures s == Story(old(nextId), Row(user, title, content, category, old(clock)))
      ensures s.id !in old(rows) && rows == old(rows)[s.id := s.row]
    {
      s := Story(nextId, Row(user, title, content, category, clock));
      rows := rows[nextId := s.row];
      nextId := nextId + 1;
      clock := clock + 1;
    }

    /** `UPDATE … WHERE id = … AND user_id = … RETURNING *`: patches the one
        matching row, or changes nothing when there is none. */
    method Update(user: string, id: nat, patch: Body) returns (s: Option<Story>)
      requires Valid()
      modifies this
      ensures Valid() && nextId == old(nextId) && clock == old(clock)
      ensures Owns(old(rows), id, user) ==>
        s == Some(Story(id, ApplyPatch(old(rows)[id], patch))) && rows == old(rows)[id := s.value.row]
      ensures !Owns(old(rows), id, user) ==> s == None && rows == old(rows)
    {
      if Owns(rows, id, user) {
        var row := ApplyPatch(rows[id], patch);
        rows := rows[id := row];
        s := Some(Story(id, row));
      } else {
        s := None;
      }
    }

    /** `DELETE … WHERE id = … AND user_id = …`: removes the one matching
        row, or changes nothing when there is none. */
    method Delete(user: string, id: nat) returns (found: bool)
      requires Valid()
      modifies this
      ensures Valid() && nextId == old(nextId) && clock == old(clock)
      ensures found == Owns(old(rows), id, user)
      ensures rows == if found then old(rows) - {id} else old(rows)
    {
      found := Owns(rows, id, user);
      if found {
        rows := rows - {id};
      }
    }

    /** The handler: validation, then the operation and its response. */
    method Handle(req: Request) returns (resp: Response)
      requires Valid()
      modifies this
      ensures Valid()
      ensures match PlanFor(req)
        case Reply(r) => resp == r && rows == old(rows)
        case Run(FetchOne(user, id)) =>
          && rows == old(rows)
          && resp == (if Owns(rows, id, user) then Response(200, One(Story(id, rows[id])))
                      else Response(404, Error(NotFound)))
        case Run(FetchAll(user)) =>
          rows == old(rows) && resp == Response(200, Many(ListFor(user)))
        case Run(Insert(user, title, content, category)) =>
          && old(nextId) !in old(rows)
          && rows == old(rows)[old(nextId) := Row(user, title, content, category, old(clock))]
          && resp == Response(201, Saved(Story(old(nextId), rows[old(nextId)])))
        case Run(Edit(user, id, patch)) =>
          if Owns(old(rows), id, user) then
            && rows == old(rows)[id := ApplyPatch(old(rows)[id], patch)]
            && resp == Response(200, Saved(Story(id, rows[id])))
          else rows == old(rows) && resp == Response(404, Error(NotFoundOrUnauthorized))
        case Run(Remove(user, id)) =>
          if Owns(old(rows), id, user) then rows == old(rows) - {id} && resp == Response(200, Deleted)
          else rows == old(rows) && resp == Response(404, Error(NotFoundOrUnauthorized))
    {
      match PlanFor(req) {
        case Reply(r) =>
          resp := r;
        case Run(op) =>
          match op {
            case FetchOne(user, id) =>
              var found := Lookup(user, id);
              resp := if found.Some? then Response(200, One(found.value)) else Response(404, Error(NotFound));
            case FetchAll(user) =>
              resp := Response(200, Many(ListFor(user)));
            case Insert(user, title, content, category) =>
              var s := Insert(user, title, content, category);
              resp := Response(201, Saved(s));
            case Edit(user, id, patch) =>
              var s := Update(user, id, patch);
              resp := if s.Some? then Response(200, Saved(s.value)) else Response(404, Error(NotFoundOrUnauthorized));
            case Remove(user, id) =>
              var found := Delete(user, id);
              resp := if found then Response(200, Deleted) else Response(404, Error(NotFoundOrUnauthorized));
          }
      }
    }
  }
}
