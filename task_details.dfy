/**
 * The comment section of the task details view, frontend/src/components/TaskDetails.js:
 * its state variables as fields, loading and adding comments as methods.
 */
module TaskDetails {
  import opened Base
  import opened Json
  import opened Text
  import CM = CommentModel
  import Api
  import Store

  /** `commentAuthor || 'Anonymous'` */
  function SubmittedAuthor(author: string): (name: string)
    ensures author != "" ==> name == author
    ensures author == "" ==> name == CM.DefaultAuthor
    ensures name != ""
  {
    if author != "" then author else CM.DefaultAuthor
  }

  /** The body of a new comment: the content as typed, untrimmed, and the author to show. */
  function CommentBody(content: string, author: string): (body: Object)
    ensures body.Keys == {"content", "author"}
    ensures Get(body, "content") == Some(content)
    ensures Get(body, "author") == Some(SubmittedAuthor(author))
    ensures !NoData(Some(body))
  {
    map["content" := Str(content), "author" := Str(SubmittedAuthor(author))]
  }

  /**
   * `disabled={addingComment || !newComment.trim()}`, negated: enabled exactly
   * when nothing is in flight and some character is not JavaScript white space.
   */
  predicate SubmitEnabled(adding: bool, content: string)
    ensures SubmitEnabled(adding, content) <==>
      !adding && exists i :: 0 <= i < |content| && !IsSpace(JavaScript, content[i])
  {
    !adding && !IsBlank(JavaScript, content)
  }

  /**
   * A comment the panel lets through reaches the server with a body, under the
   * author the panel chose, and the server finds its content blank exactly when
   * Python's `strip` leaves nothing of it.
   */
  lemma SubmittedCommentHasContent(content: string, author: string, id: int, taskId: int, now: Time)
    requires SubmitEnabled(false, content)
    ensures var c := Store.CommentDraft(CommentBody(content, author), id, taskId, now);
      && !NoData(Some(CommentBody(content, author)))
      && (CM.ContentBlank(c.content) <==> AllSpace(Python, content))
      && c.author == Some(SubmittedAuthor(author))
      && c.taskId == taskId
  {
    var body := CommentBody(content, author);
    assert Json.Get(body, "content") == Some(content);
  }

  /**
   * The panel and the server strip different sets: a comment made of one
   * information separator enables the button, and the server refuses it as
   * blank. Conversely a lone byte order mark is kept back by the panel
   * although the server would accept it.
   */
  lemma PanelAndServerDisagree(author: string, id: int, taskId: int, now: Time)
    ensures SubmitEnabled(false, "\U{1C}")
    ensures CM.ContentBlank(Store.CommentDraft(CommentBody("\U{1C}", author), id, taskId, now).content)
    ensures !SubmitEnabled(false, "\U{FEFF}")
    ensures !CM.ContentBlank(Store.CommentDraft(CommentBody("\U{FEFF}", author), id, taskId, now).content)
  {
    SubmittedCommentHasContent("\U{1C}", author, id, taskId, now);
    assert !IsSpace(JavaScript, "\U{1C}"[0]);
    assert !IsSpace(Python, "\U{FEFF}"[0]);
  }

  class CommentPanel {
    /** The id of the task shown. */
    const taskId: int
    var comments: seq<CM.CommentDict>
    var newComment: string
    var commentAuthor: string
    var loadingComments: bool
    var addingComment: bool

    constructor (taskId: int)
      ensures this.taskId == taskId
      ensures comments == [] && newComment == "" && commentAuthor == ""
      ensures loadingComments && !addingComment
    {
      this.taskId := taskId;
      comments := [];
      newComment := "";
      commentAuthor := "";
      loadingComments := true;
      addingComment := false;
    }

    /** `loadComments`: a load replaces the list; a failed one leaves it as it was. */
    method LoadComments(reply: Api.Reply<seq<CM.CommentDict>>) returns (call: Api.Call)
      modifies this
      ensures call == Api.GetTaskComments(taskId)
      ensures !loadingComments
      ensures reply.Resolved? ==> comments == reply.value
      ensures reply.Rejected? ==> comments == old(comments)
      ensures unchanged(this`newComment, this`commentAuthor, this`addingComment)
    {
      loadingComments := true;
      call := Api.GetTaskComments(taskId);
      if reply.Resolved? {
        comments := reply.value;
      }
      loadingComments := false;
    }

    /**
     * `handleAddComment`: a blank comment sends nothing; otherwise the returned
     * comment goes first and the inputs clear, and a failure changes neither.
     */
    method AddComment(reply: Api.Reply<CM.CommentDict>) returns (call: Option<Api.Call>)
      modifies this
      ensures IsBlank(JavaScript, old(newComment)) ==> call == None && unchanged(this)
      ensures !IsBlank(JavaScript, old(newComment)) ==>
        && call == Some(Api.CreateComment(taskId, CommentBody(old(newComment), old(commentAuthor))))
        && !addingComment
      ensures !IsBlank(JavaScript, old(newComment)) && reply.Resolved? ==>
        comments == [reply.value] + old(comments) && newComment == "" && commentAuthor == ""
      ensures !IsBlank(JavaScript, old(newComment)) && reply.Rejected? ==>
        comments == old(comments) && newComment == old(newComment) && commentAuthor == old(commentAuthor)
      ensures unchanged(this`loadingComments)
    {
      if IsBlank(JavaScript, newComment) {
        return None;
      }
      addingComment := true;
      call := Some(Api.CreateComment(taskId, CommentBody(newComment, commentAuthor)));
      if reply.Resolved? {
        comments := [reply.value] + comments;
        newComment := "";
        commentAuthor := "";
      }
      addingComment := false;
    }

    /** The two text inputs. */
    method SetNewComment(value: string)
      modifies this`newComment
      ensures newComment == value
    {
      newComment := value;
    }

    method SetCommentAuthor(value: string)
      modifies this`commentAuthor
      ensures commentAuthor == value
    {
      commentAuthor := value;
    }
  }
}
