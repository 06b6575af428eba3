/**
  The `vote` route: validate the value, find the post and, when a comment
  identifier is given, the comment; apply the vote transition to the one
  (user, target) row; then reload the post and annotate it and each of its
  comments with the acting user's own vote.
 */
module MiscRoutes {
  import opened Wrappers
  import opened Votes

  /** A comment identifier selects a comment only when it is truthy: absent
      and the empty string both mean "vote on the post". */
  predicate HasComment(commentIdentifier: Option<string>) {
    commentIdentifier.Some? && commentIdentifier.value != ""
  }

  /**
    The target a request names, given the posts (identifier to slug) and the
    comments (identifier to the identifier of their post). The post must match
    both identifier and slug; the comment is looked up by identifier alone.
   */
  function Resolve(posts: map<string, string>, comments: map<string, string>,
                   identifier: string, slug: string, commentIdentifier: Option<string>): (r: Result<Target, Missing>)
    ensures r == Err(PostMissing) <==> identifier !in posts || posts[identifier] != slug
    ensures r == Err(CommentMissing) <==>
              identifier in posts && posts[identifier] == slug &&
              HasComment(commentIdentifier) && commentIdentifier.value !in comments
    ensures r.Ok? && HasComment(commentIdentifier) ==> r.value == CommentT(commentIdentifier.value)
    ensures r.Ok? && !HasComment(commentIdentifier) ==> r.value == PostT(identifier)
  {
    if identifier !in posts || posts[identifier] != slug then Err(PostMissing)
    else if HasComment(commentIdentifier) then
      if commentIdentifier.value in comments then Ok(CommentT(commentIdentifier.value))
      else Err(CommentMissing)
    else Ok(PostT(identifier))
  }

  /**
    The new vote rows a request leads to, or the reason it fails. A value
    outside {-1, 0, 1} fails before any lookup; a failed request changes nothing.
   */
  function Step(posts: map<string, string>, comments: map<string, string>, votes: VoteMap,
                user: string, identifier: string, slug: string, commentIdentifier: Option<string>,
                value: int): (r: Result<VoteMap, Failure>)
    ensures !IsVoteValue(value) ==> r == Err(InvalidValue)
    ensures IsVoteValue(value) && (identifier !in posts || posts[identifier] != slug) ==> r == Err(ServerError(PostMissing))
    ensures r == Err(ServerError(CommentMissing)) <==>
              IsVoteValue(value) && identifier in posts && posts[identifier] == slug &&
              HasComment(commentIdentifier) && commentIdentifier.value !in comments
    ensures r == Err(VoteNotFound) <==>
              && IsVoteValue(value)
              && Resolve(posts, comments, identifier, slug, commentIdentifier).Ok?
              && VoteKey(user, Resolve(posts, comments, identifier, slug, commentIdentifier).value) !in votes
              && value == 0
    ensures r.Err? <==>
              || !IsVoteValue(value)
              || Resolve(posts, comments, identifier, slug, commentIdentifier).Err?
              || (VoteKey(user, if HasComment(commentIdentifier) then CommentT(commentIdentifier.value) else PostT(identifier)) !in votes
                  && value == 0)
    ensures r.Ok? ==>
              var key := VoteKey(user, if HasComment(commentIdentifier) then CommentT(commentIdentifier.value) else PostT(identifier));
              AgreeExcept(votes, r.value, key) && UserVote(r.value, key) == value
    ensures r.Ok? && WellFormed(votes) ==> WellFormed(r.value)
  {
    if !IsVoteValue(value) then Err(InvalidValue)
    else match Resolve(posts, comments, identifier, slug, commentIdentifier)
      case Err(m) => Err(ServerError(m))
      case Ok(t) => Cast(votes, VoteKey(user, t), value)
  }

  /** The identifiers of a post's comments. */
  function CommentsOf(comments: map<string, string>, identifier: string): set<string> {
    set c | c in comments && comments[c] == identifier
  }

  /** A comment and a post as returned to the acting user. */
  datatype CommentView = CommentView(identifier: string, userVote: int)
  datatype PostView = PostView(identifier: string, slug: string, userVote: int, comments: seq<CommentView>)

  /** The vote rows, posts and comments the route reads and writes. */
  class Store {
    var posts: map<string, string>
    var comments: map<string, string>
    var votes: VoteMap

    ghost predicate Valid()
      reads this
    {
      WellFormed(votes)
    }

    constructor (posts: map<string, string>, comments: map<string, string>)
      ensures Valid()
      ensures this.posts == posts && this.comments == comments && votes == map[]
    {
      this.posts := posts;
      this.comments := comments;
      votes := map[];
    }

    /** The response for `user` on post `identifier`: the post and every one of
        its comments, once each, each carrying the user's own vote. */
    ghost predicate Annotated(view: PostView, user: string, identifier: string, slug: string)
      reads this
    {
      && view.identifier == identifier && view.slug == slug
      && view.userVote == UserVote(votes, VoteKey(user, PostT(identifier)))
      && (forall i, j :: 0 <= i < j < |view.comments| ==> view.comments[i].identifier != view.comments[j].identifier)
      && (forall i :: 0 <= i < |view.comments| ==>
            && view.comments[i].identifier in CommentsOf(comments, identifier)
            && view.comments[i].userVote == UserVote(votes, VoteKey(user, CommentT(view.comments[i].identifier))))
      && (forall c :: c in CommentsOf(comments, identifier) ==>
            exists i :: 0 <= i < |view.comments| && view.comments[i].identifier == c)
    }

    /** Loads a post's comments, each once, in no particular order. */
    method LoadComments(identifier: string) returns (cs: seq<string>)
      ensures forall c :: c in cs <==> c in CommentsOf(comments, identifier)
      ensures forall i, j :: 0 <= i < j < |cs| ==> cs[i] != cs[j]
    {
      var pending := CommentsOf(comments, identifier);
      cs := [];
      while pending != {}
        invariant pending <= CommentsOf(comments, identifier)
        invariant forall c :: c in cs <==> c in CommentsOf(comments, identifier) && c !in pending
        invariant forall i, j :: 0 <= i < j < |cs| ==> cs[i] != cs[j]
        decreases pending
      {
        var c :| c in pending;
        cs := cs + [c];
        pending := pending - {c};
      }
    }

    /** Sets each comment's user vote to the acting user's own vote on it. */
    method AnnotateComments(user: string, cs: seq<string>) returns (views: seq<CommentView>)
      ensures |views| == |cs|
      ensures forall i :: 0 <= i < |cs| ==>
                views[i].identifier == cs[i] && views[i].userVote == UserVote(votes, VoteKey(user, CommentT(cs[i])))
    {
      views := [];
      for i := 0 to |cs|
        invariant |views| == i
        invariant forall k :: 0 <= k < i ==>
                    views[k].identifier == cs[k] && views[k].userVote == UserVote(votes, VoteKey(user, CommentT(cs[k])))
      {
        views := views + [CommentView(cs[i], UserVote(votes, VoteKey(user, CommentT(cs[i]))))];
      }
    }

    /**
      Handles one vote request by `user`. The vote rows end up as `Step`
      says; a failure changes nothing, and a success returns the reloaded post
      annotated with the user's own votes.
     */
    method CastVote(user: string, identifier: string, slug: string, commentIdentifier: Option<string>, value: int)
      returns (r: Result<PostView, Failure>)
      requires Valid()
      modifies this`votes
      ensures Valid()
      ensures r.Err? ==> votes == old(votes)
      ensures r.Err? <==> Step(posts, comments, old(votes), user, identifier, slug, commentIdentifier, value).Err?
      ensures r.Err? ==> Step(posts, comments, old(votes), user, identifier, slug, commentIdentifier, value) == Err(r.error)
      ensures r.Ok? ==> Step(posts, comments, old(votes), user, identifier, slug, commentIdentifier, value) == Ok(votes)
      ensures r.Ok? ==> Annotated(r.value, user, identifier, slug)
    {
      if !IsVoteValue(value) {
        return Err(InvalidValue);
      }
      if identifier !in posts || posts[identifier] != slug {
        return Err(ServerError(PostMissing));
      }
      var target := PostT(identifier);
      if HasComment(commentIdentifier) {
        if commentIdentifier.value !in comments {
          return Err(ServerError(CommentMissing));
        }
        target := CommentT(commentIdentifier.value);
      }
      var key := VoteKey(user, target);
      var existing := if key in votes then Some(votes[key]) else None;

      if existing.None? && value == 0 {
        return Err(VoteNotFound);
      } else if existing.None? {
        votes := votes[key := value];
      } else if value == 0 {
        votes := votes - {key};
      } else if existing.value != value {
        votes := votes[key := value];
      }

      var cs := LoadComments(identifier);
      var commentViews := AnnotateComments(user, cs);
      r := Ok(PostView(identifier, slug, UserVote(votes, VoteKey(user, PostT(identifier))), commentViews));
    }
  }
}
