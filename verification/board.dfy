/**
 * What the job reads from the board API: the items of the first board, each
 * with its column values, and the staged checks on the parsed response that
 * end the run early. The HTTP request itself is outside the model; a reply
 * is given as its status code, its body text and its parsed JSON shape.
 */
module Board {
  import opened Wrappers

  /** The column holding the recipient address. */
  const EmailColumn: string := "email1__1"
  /** The column holding the message body. */
  const ContentColumn: string := "email_content__1"

  datatype ColumnValue = ColumnValue(id: string, text: string)
  datatype Item = Item(name: string, columnValues: seq<ColumnValue>)

  /** `items_page`: its `items` key may be absent. */
  datatype ItemsPage = ItemsPage(items: Option<seq<Item>>)
  datatype BoardData = BoardData(itemsPage: ItemsPage)
  datatype Data = Data(boards: seq<BoardData>)
  /** The parsed JSON body: its top-level `data` key may be absent. */
  datatype Body = Body(data: Option<Data>)
  datatype HttpReply = HttpReply(statusCode: int, text: string, body: Body)

  /** The ways the fetch-and-navigate stage ends the run, in the order they are checked. */
  datatype RunError =
    | QueryFailed(statusCode: int, text: string)
    | NoDataKey
    | NoBoards
    | NoItemsKey

  /**
   * The text of the FIRST column value whose id is `id`, or `None` when
   * there is none; later column values with that id are never looked at.
   */
  function FirstText(cvs: seq<ColumnValue>, id: string): (r: Option<string>)
    ensures r.None? <==> forall i :: 0 <= i < |cvs| ==> cvs[i].id != id
    ensures r.Some? ==> exists i :: 0 <= i < |cvs| && cvs[i].id == id && cvs[i].text == r.value
                                    && forall j :: 0 <= j < i ==> cvs[j].id != id
  {
    if cvs == [] then None
    else if cvs[0].id == id then Some(cvs[0].text)
    else
      var r := FirstText(cvs[1..], id);
      assert forall i :: 1 <= i < |cvs| ==> cvs[i] == cvs[1..][i - 1];
      if r.Some? then
        var i :| 0 <= i < |cvs| - 1 && cvs[1..][i].id == id && cvs[1..][i].text == r.value
                 && forall j :: 0 <= j < i ==> cvs[1..][j].id != id;
        assert forall j :: 0 <= j < i + 1 ==> cvs[j].id != id by {
          forall j | 0 <= j < i + 1 ensures cvs[j].id != id {
            if j > 0 { assert cvs[j] == cvs[1..][j - 1]; }
          }
        }
        r
      else r
  }

  /** The first column value with id `id` decides the lookup, whatever follows it. */
  lemma FirstMatchDecides(cvs: seq<ColumnValue>, id: string, i: nat)
    requires i < |cvs| && cvs[i].id == id
    requires forall j :: 0 <= j < i ==> cvs[j].id != id
    ensures FirstText(cvs, id) == Some(cvs[i].text)
  {
  }

  /** The address of an item, as the job looks it up. */
  function EmailOf(item: Item): Option<string> {
    FirstText(item.columnValues, EmailColumn)
  }

  /** The message body of an item, as the job looks it up. */
  function ContentOf(item: Item): Option<string> {
    FirstText(item.columnValues, ContentColumn)
  }

  /** The status check of the fetch: any status but 200 is an error carrying it and the body text. */
  function CheckStatus(reply: HttpReply): (r: Result<Body, RunError>)
    ensures r.Success? <==> reply.statusCode == 200
    ensures r.Success? ==> r.value == reply.body
    ensures r.Failure? ==> r.error == QueryFailed(reply.statusCode, reply.text)
  {
    if reply.statusCode == 200 then Success(reply.body)
    else Failure(QueryFailed(reply.statusCode, reply.text))
  }

  /**
   * The staged navigation of a parsed body to the items of the first board:
   * a missing `data` key, then an empty `boards` list, then a missing
   * `items` key each stop it, checked in that order.
   */
  function ItemsOf(body: Body): (r: Result<seq<Item>, RunError>)
    ensures r.Success? <==>
      body.data.Some? && body.data.value.boards != [] && body.data.value.boards[0].itemsPage.items.Some?
    ensures r.Success? ==> r.value == body.data.value.boards[0].itemsPage.items.value
    ensures r == Failure(NoDataKey) <==> body.data.None?
    ensures r == Failure(NoBoards) <==> body.data.Some? && body.data.value.boards == []
    ensures r == Failure(NoItemsKey) <==>
      body.data.Some? && body.data.value.boards != [] && body.data.value.boards[0].itemsPage.items.None?
    ensures r.Failure? ==> !r.error.QueryFailed?
  {
    match body.data
    case None => Failure(NoDataKey)
    case Some(data) =>
      if data.boards == [] then Failure(NoBoards)
      else
        match data.boards[0].itemsPage.items
        case None => Failure(NoItemsKey)
        case Some(items) => Success(items)
  }

  /** Fetch and navigate: the items the job goes on to process, or why it stopped. */
  function FetchItems(reply: HttpReply): (r: Result<seq<Item>, RunError>)
    ensures r.Failure? && r.error.QueryFailed? <==> reply.statusCode != 200
    ensures reply.statusCode != 200 ==> r == Failure(QueryFailed(reply.statusCode, reply.text))
    ensures reply.statusCode == 200 ==> r == ItemsOf(reply.body)
  {
    match CheckStatus(reply)
    case Failure(e) => Failure(e)
    case Success(body) => ItemsOf(body)
  }
}
