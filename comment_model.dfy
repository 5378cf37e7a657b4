/** The Comment record (backend/app/models/comment.py): columns, validation and serialisation. */
module CommentModel {
  import opened Base
  import opened Text

  const ContentRequired := "Comment content is required and cannot be empty"
  const ContentTooLong := "Comment cannot exceed 1000 characters"
  const AuthorTooLong := "Author name cannot exceed 100 characters"

  const MaxContentLength := 1000
  const MaxAuthorLength := 100

  /** Column default of `author`. */
  const DefaultAuthor := "Anonymous"

  /** A stored comment row; `content` and `author` are None when the payload gave null or nothing. */
  datatype Comment = Comment(
    id: int,
    content: Option<string>,
    author: Option<string>,
    taskId: int,
    createdAt: Time,
    updatedAt: Time)

  /** `not self.content or len(self.content.strip()) < 1`, stripped as Python strips. */
  predicate ContentBlank(content: Option<string>)
  {
    content.None? || IsBlank(Python, content.value)
  }

  /** `self.content and len(self.content) > 1000` */
  predicate ContentOverLimit(content: Option<string>)
  {
    content.Some? && |content.value| > MaxContentLength
  }

  /** `self.author and len(self.author) > 100` */
  predicate AuthorOverLimit(author: Option<string>)
  {
    author.Some? && |author.value| > MaxAuthorLength
  }

  predicate IsValid(c: Comment)
  {
    !ContentBlank(c.content) && !ContentOverLimit(c.content) && !AuthorOverLimit(c.author)
  }

  /** Position of a message in the order the checks run. */
  function Rank(e: string): nat
  {
    if e == ContentRequired then 0 else if e == ContentTooLong then 1 else 2
  }

  /** `errors` reports exactly the rules `c` breaks, once each, in the order they are checked. */
  predicate Explains(errors: seq<string>, c: Comment)
  {
    && (ContentRequired in errors <==> ContentBlank(c.content))
    && (ContentTooLong in errors <==> ContentOverLimit(c.content))
    && (AuthorTooLong in errors <==> AuthorOverLimit(c.author))
    && (forall e :: e in errors ==> e == ContentRequired || e == ContentTooLong || e == AuthorTooLong)
    && (forall i, j :: 0 <= i < j < |errors| ==> Rank(errors[i]) < Rank(errors[j]))
  }

  /** `Comment.validate`: appends one message per broken rule. */
  method Validate(c: Comment) returns (errors: seq<string>)
    ensures Explains(errors, c)
    ensures |errors| <= 3
    ensures errors == [] <==> IsValid(c)
  {
    errors := [];
    if ContentBlank(c.content) {
      errors := errors + [ContentRequired];
    }
    if ContentOverLimit(c.content) {
      errors := errors + [ContentTooLong];
    }
    if AuthorOverLimit(c.author) {
      errors := errors + [AuthorTooLong];
    }
  }

  /** An absent or empty author never produces an error. */
  lemma EmptyAuthorAccepted(c: Comment)
    requires c.author == None || c.author == Some("")
    ensures !AuthorOverLimit(c.author)
  {
  }

  /** `Comment.to_dict()`; timestamps stay instants (their ISO rendering is not modelled). */
  datatype CommentDict = CommentDict(
    id: int,
    content: Option<string>,
    author: Option<string>,
    taskId: int,
    createdAt: Time,
    updatedAt: Time)

  function ToDict(c: Comment): (d: CommentDict)
    ensures d.id == c.id && d.taskId == c.taskId
    ensures d.content == c.content && d.author == c.author
    ensures d.createdAt == c.createdAt && d.updatedAt == c.updatedAt
  {
    CommentDict(c.id, c.content, c.author, c.taskId, c.createdAt, c.updatedAt)
  }

  /**
   * What the INSERT stores: the ORM leaves a None attribute out of the statement,
   * so the column default 'Anonymous' fills a missing author.
   */
  function WithColumnDefaults(c: Comment): (r: Comment)
    ensures r.author.Some?
    ensures c.author.None? ==> r.author == Some(DefaultAuthor)
    ensures c.author.Some? ==> r == c
    ensures r.(author := c.author) == c
  {
    if c.author.None? then c.(author := Some(DefaultAuthor)) else c
  }

  /** Filling the default author never makes a valid comment invalid. */
  lemma ColumnDefaultsKeepValid(c: Comment)
    requires IsValid(c)
    ensures IsValid(WithColumnDefaults(c))
  {
  }
}
