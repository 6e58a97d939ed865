/** What `toJSON` and `fromJSON` of the value objects promise each other, and
    the counting of a source's uses. */
module EntityLemmas {
  import opened Results
  import opened JsonValues
  import opened StudyCatalog
  import opened GameEntities

  /** The study still has the source's template. */
  predicate SourceResolves(study: Study, s: GameSource) {
    GetSource(study.sources, s.source.id).Some?
  }

  /** The study still has the post's template, with a template for each comment. */
  predicate PostResolves(study: Study, p: GamePost) {
    var template := GetPost(study.posts, p.post.id);
    template.Some? && |p.comments| <= |template.value.comments|
  }

  predicate StateResolves(study: Study, s: GameState) {
    SourceResolves(study, s.currentSource) && PostResolves(study, s.currentPost)
  }

  /** Reading a source back gives the same numbers and the study's template for its ID. */
  lemma SourceRoundTrip(s: GameSource, study: Study)
    requires SourceResolves(study, s)
    ensures GameSource.FromJson(s.ToJson(), study) == Success(s.(source := GetSource(study.sources, s.source.id).value))
    ensures GameSource.FromJson(s.ToJson(), study).value.ToJson() == s.ToJson()
  {
    var j := s.ToJson();
    assert Field(j, "sourceID") == Some(JStr(s.source.id));
    assert Field(j, "credibility") == Some(JNum(s.credibility));
    assert Field(j, "followers") == Some(JNum(s.followers));
    assert Field(j, "remainingUses") == Some(JNum(s.remainingUses));
  }

  /** The comments read back against a post template with enough comment
      templates have the same reaction counts, so they write the same JSON. */
  lemma {:induction false} CommentsRoundTrip(comments: seq<GamePostComment>, post: PostTemplate)
    requires |comments| <= |post.comments|
    ensures GamePost.CommentsFromJson(GamePost.CommentsJson(comments), post).Success?
    ensures var back := GamePost.CommentsFromJson(GamePost.CommentsJson(comments), post).value;
            && |back| == |comments|
            && (forall i :: 0 <= i < |comments| ==>
                  back[i] == GamePostComment(post.comments[i], comments[i].numberOfReactions))
            && GamePost.CommentsJson(back) == GamePost.CommentsJson(comments)
  {
    var items := GamePost.CommentsJson(comments);
    forall i | 0 <= i < |items|
      ensures GamePostComment.FromJson(items[i], i, post)
                == Success(GamePostComment(post.comments[i], comments[i].numberOfReactions))
    {
      assert items[i] == comments[i].ToJson();
      assert Field(items[i], "numberOfReactions") == Some(NumberMapJson(comments[i].numberOfReactions));
      NumberMapRoundTrip(comments[i].numberOfReactions, "Number of reactions for the comment");
    }
    var back := GamePost.CommentsFromJson(items, post).value;
    assert forall i :: 0 <= i < |comments| ==> back[i].ToJson() == comments[i].ToJson();
    assert GamePost.CommentsJson(back) == GamePost.CommentsJson(comments);
  }

  /** A post read back against the same study writes the same JSON. */
  lemma PostRoundTrip(p: GamePost, study: Study)
    requires PostResolves(study, p)
    ensures GamePost.FromJson(p.ToJson(), study).Success?
    ensures GamePost.FromJson(p.ToJson(), study).value.ToJson() == p.ToJson()
  {
    var j := p.ToJson();
    var template := GetPost(study.posts, p.post.id).value;
    assert Field(j, "postID") == Some(JStr(p.post.id));
    assert Field(j, "comments") == Some(JArr(GamePost.CommentsJson(p.comments)));
    assert Field(j, "numberOfReactions") == Some(NumberMapJson(p.numberOfReactions));
    assert Field(j, "shown") == Some(JBool(p.shown));
    CommentsRoundTrip(p.comments, template);
    NumberMapRoundTrip(p.numberOfReactions, "Number of reactions for the post");
    var back := GamePost.FromJson(j, study).value;
    assert back.post.id == p.post.id;
    assert back.numberOfReactions == p.numberOfReactions;
    assert back.shown == p.shown;
  }

  /** A state read back against the same study writes the same JSON, and takes
      the index it is given. */
  lemma StateRoundTrip(s: GameState, study: Study, indexInGame: nat)
    requires StateResolves(study, s)
    ensures GameState.FromJson(s.ToJson(), study, indexInGame).Success?
    ensures GameState.FromJson(s.ToJson(), study, indexInGame).value.ToJson() == s.ToJson()
    ensures GameState.FromJson(s.ToJson(), study, indexInGame).value.indexInGame == indexInGame
  {
    var j := s.ToJson();
    assert Field(j, "currentSource") == Some(s.currentSource.ToJson());
    assert Field(j, "currentPost") == Some(s.currentPost.ToJson());
    SourceRoundTrip(s.currentSource, study);
    PostRoundTrip(s.currentPost, study);
  }

  /** `max(-1, remainingUses - 1)` turns an exhausted source (0 uses left) into
      an unlimited one (-1); only a selection that picks an exhausted source can
      reach this, and `selectRandomSource` never does. */
  lemma ExhaustedSourceBecomesUnlimited(s: GameSource, credibilityChange: real, followersChange: real)
    requires s.remainingUses == 0.0
    ensures !s.CanBeUsed()
    ensures s.AdjustAfterPost(credibilityChange, followersChange).remainingUses == -1.0
    ensures s.AdjustAfterPost(credibilityChange, followersChange).CanBeUsed()
  {
  }

  /** The source after `n` posts, each with its own credibility and follower change. */
  function AfterPosts(s: GameSource, changes: seq<(real, real)>): GameSource
    decreases |changes|
  {
    if changes == [] then s
    else AfterPosts(s.AdjustAfterPost(changes[0].0, changes[0].1), changes[1..])
  }

  /** A source with `n` uses left can be shown exactly `n` more times: it stays
      usable before the `n`-th post and is exhausted after it. An unlimited
      source stays unlimited. */
  lemma {:induction false} UsesCountDown(s: GameSource, changes: seq<(real, real)>)
    requires s.remainingUses == -1.0 || (s.remainingUses >= 0.0 && s.remainingUses.Floor as real == s.remainingUses)
    ensures s.remainingUses == -1.0 ==> AfterPosts(s, changes).remainingUses == -1.0
    ensures s.remainingUses >= |changes| as real ==>
              AfterPosts(s, changes).remainingUses == s.remainingUses - |changes| as real
    ensures s.remainingUses == |changes| as real && |changes| > 0 ==> !AfterPosts(s, changes).CanBeUsed()
    decreases |changes|
  {
    if changes != [] {
      var next := s.AdjustAfterPost(changes[0].0, changes[0].1);
      if s.remainingUses >= 1.0 {
        assert next.remainingUses.Floor as real == next.remainingUses by {
          assert next.remainingUses == s.remainingUses - 1.0;
          assert (s.remainingUses - 1.0).Floor == s.remainingUses.Floor - 1;
        }
      }
      if s.remainingUses == -1.0 || s.remainingUses >= 1.0 {
        UsesCountDown(next, changes[1..]);
      }
    }
  }
}
