/**
 * Concrete values run through the profile validators: the accepted and rejected forms
 * that the social-link messages and the field hints describe.
 */
module ProfileRuleExamples {
  import opened Wrappers
  import opened Text
  import opened Pattern
  import opened ProfileRules
  import opened ProfileRuleProperties

  /** A piece of `s` equals a literal when it agrees with it character by character. */
  lemma SliceIs(s: string, i: nat, w: string)
    requires i + |w| <= |s| && forall m | 0 <= m < |w| :: s[i + m] == w[m]
    ensures s[i..i + |w|] == w
  {
  }

  /** The pieces `http`, `s`, `://` and an absent `www.` of a value starting with `https://`. */
  lemma SchemePieces(p: seq<Atom>, v: string, cuts: seq<nat>)
    requires |p| >= 4 && p[0] == Lit("http") && p[1] == Opt("s") && p[2] == Lit("://") && p[3] == Opt("www.")
    requires |cuts| == |p| + 1 && cuts[0] == 0 && cuts[1] == 4 && cuts[2] == 5 && cuts[3] == 8 && cuts[4] == 8
    requires |v| >= 8 && v[0] == 'h' && v[1] == 't' && v[2] == 't' && v[3] == 'p'
    requires v[4] == 's' && v[5] == ':' && v[6] == '/' && v[7] == '/'
    ensures forall k | 0 <= k < 4 :: PieceMatches(p, v, cuts, k)
  {
    assert PieceMatches(p, v, cuts, 0) by { SliceIs(v, 0, "http"); }
    assert PieceMatches(p, v, cuts, 1) by { SliceIs(v, 4, "s"); }
    assert PieceMatches(p, v, cuts, 2) by { SliceIs(v, 5, "://"); }
    assert PieceMatches(p, v, cuts, 3);
  }

  /** A bare Instagram username with a dot and an underscore passes. */
  lemma InstagramUsernameAccepted(v: string)
    requires v == "my.user_1"
    ensures InstagramError(v) == None
  {
    InstagramUsernameRule(v);
  }

  /** A bare Instagram username with a space is refused with the username message. */
  lemma InstagramUsernameWithSpaceRejected(v: string)
    requires v == "my user"
    ensures InstagramError(v) == Some(INSTAGRAM_USERNAME_INVALID)
  {
    InstagramUsernameRule(v);
    assert !InClass(WordDotDash, v[2]);
  }

  /** The example URLs name their host right after `https://`, at index 8. */
  lemma MentionsHost(v: string, host: string)
    requires host == "instagram.com" ==> v == "https://instagram.com/myuser" || v == "https://instagram.com/my user"
    requires host == "youtube.com" ==> v == "https://youtube.com/@X" || v == "https://youtube.com/channel/X"
    requires host == "instagram.com" || host == "youtube.com"
    ensures Contains(v, host)
  {
    SliceIs(v, 8, host);
    assert OccursAt(v, host, 8);
  }

  /** The scheme, separator and host pieces of `https://instagram.com/myuser`. */
  lemma InstagramUrlHead(p: seq<Atom>, v: string, cuts: seq<nat>)
    requires p == INSTAGRAM_URL && v == "https://instagram.com/myuser"
    requires cuts == [0, 4, 5, 8, 8, 22, 28, 28]
    ensures forall k | 0 <= k < 5 :: PieceMatches(p, v, cuts, k)
  {
    SchemePieces(p, v, cuts);
    assert PieceMatches(p, v, cuts, 4) by { SliceIs(v, 8, "instagram.com/"); }
  }

  /** The user-name and trailing-slash pieces of `https://instagram.com/myuser`. */
  lemma InstagramUrlTail(p: seq<Atom>, v: string, cuts: seq<nat>)
    requires p == INSTAGRAM_URL && v == "https://instagram.com/myuser"
    requires cuts == [0, 4, 5, 8, 8, 22, 28, 28]
    ensures PieceMatches(p, v, cuts, 5) && PieceMatches(p, v, cuts, 6)
  {
    assert PieceMatches(p, v, cuts, 5) by {
      forall m | 22 <= m < 28 ensures InClass(WordDotDash, v[m]) { assert IsLower(v[m]); }
    }
  }

  lemma InstagramUrlMatches(p: seq<Atom>, v: string)
    requires p == INSTAGRAM_URL && v == "https://instagram.com/myuser"
    ensures FullMatch(p, v)
  {
    var cuts: seq<nat> := [0, 4, 5, 8, 8, 22, 28, 28];
    InstagramUrlHead(p, v, cuts);
    InstagramUrlTail(p, v, cuts);
    MatchedBy(p, v, cuts);
  }

  /** `https://instagram.com/myuser` is a profile URL. */
  lemma InstagramUrlAccepted(v: string)
    requires v == "https://instagram.com/myuser"
    ensures InstagramError(v) == None
  {
    InstagramUrlMatches(INSTAGRAM_URL, v);
    MentionsHost(v, "instagram.com");
    InstagramUrlRule(v);
  }

  /** No atom of the Instagram URL pattern admits a space. */
  lemma SpaceOutsideInstagramUrl(p: seq<Atom>)
    requires p == INSTAGRAM_URL
    ensures !Admits(p, ' ')
  {
    forall i | 0 <= i < |p| ensures !AtomAdmits(p[i], ' ') {
      if i == 0 {
      } else if i == 1 {
      } else if i == 2 {
      } else if i == 3 {
      } else if i == 4 {
      } else if i == 5 {
      } else {
        assert i == 6;
      }
    }
    NoAtomAdmits(p, ' ');
  }

  lemma InstagramUrlWithSpaceMismatches(v: string)
    requires v == "https://instagram.com/my user"
    ensures !FullMatch(INSTAGRAM_URL, v)
  {
    assert v[24] == ' ';
    SpaceOutsideInstagramUrl(INSTAGRAM_URL);
    ForeignCharRefutes(INSTAGRAM_URL, v, 24);
  }

  /** A profile URL whose name has a space is refused with the URL message. */
  lemma InstagramUrlWithSpaceRejected(v: string)
    requires v == "https://instagram.com/my user"
    ensures InstagramError(v) == Some(INSTAGRAM_URL_INVALID)
  {
    InstagramUrlWithSpaceMismatches(v);
    MentionsHost(v, "instagram.com");
    InstagramUrlRule(v);
  }

  /** The scheme, separator and host pieces of `https://youtube.com/@X`. */
  lemma YoutubeHandleUrlHead(p: seq<Atom>, v: string, cuts: seq<nat>)
    requires p == YOUTUBE_URL && v == "https://youtube.com/@X"
    requires cuts == [0, 4, 5, 8, 8, 20, 21, 22, 22]
    ensures forall k | 0 <= k < 5 :: PieceMatches(p, v, cuts, k)
  {
    SchemePieces(p, v, cuts);
    assert PieceMatches(p, v, cuts, 4) by { SliceIs(v, 8, "youtube.com/"); }
  }

  /** The `@`, name and trailing-slash pieces of `https://youtube.com/@X`. */
  lemma YoutubeHandleUrlTail(p: seq<Atom>, v: string, cuts: seq<nat>)
    requires p == YOUTUBE_URL && v == "https://youtube.com/@X"
    requires cuts == [0, 4, 5, 8, 8, 20, 21, 22, 22]
    ensures forall k | 5 <= k < 8 :: PieceMatches(p, v, cuts, k)
  {
    assert PieceMatches(p, v, cuts, 5) by { SliceIs(v, 20, "@"); }
    assert PieceMatches(p, v, cuts, 6) by { assert IsUpper(v[21]); }
    assert PieceMatches(p, v, cuts, 7);
  }

  lemma YoutubeHandleUrlMatches(p: seq<Atom>, v: string)
    requires p == YOUTUBE_URL && v == "https://youtube.com/@X"
    ensures FullMatch(p, v)
  {
    var cuts: seq<nat> := [0, 4, 5, 8, 8, 20, 21, 22, 22];
    YoutubeHandleUrlHead(p, v, cuts);
    YoutubeHandleUrlTail(p, v, cuts);
    MatchedBy(p, v, cuts);
  }

  /** A handle URL `https://youtube.com/@X` passes. */
  lemma YoutubeHandleUrlAccepted(v: string)
    requires v == "https://youtube.com/@X"
    ensures YoutubeError(v) == None
  {
    YoutubeHandleUrlMatches(YOUTUBE_URL, v);
    MentionsHost(v, "youtube.com");
    YoutubeUrlRule(v);
  }

  lemma YoutubeChannelUrlMismatches(v: string)
    requires v == "https://youtube.com/channel/X"
    ensures !FullMatch(YOUTUBE_URL, v)
  {
    assert v[27] == '/' && |v| == 29;
    if FullMatch(YOUTUBE_URL, v) {
      YoutubeUrlShape(v);
    }
  }

  /** The usual channel URL `https://youtube.com/channel/X` is refused: the pattern has no `/` after `channel`. */
  lemma YoutubeChannelUrlRejected(v: string)
    requires v == "https://youtube.com/channel/X"
    ensures YoutubeError(v) == Some(YOUTUBE_URL_INVALID)
  {
    YoutubeChannelUrlMismatches(v);
    MentionsHost(v, "youtube.com");
    YoutubeUrlRule(v);
  }

  /** The scheme, separator and host pieces of `https://example.com`. */
  lemma WebsiteHead(p: seq<Atom>, v: string, cuts: seq<nat>)
    requires p == WEBSITE_URL && v == "https://example.com"
    requires cuts == [0, 4, 5, 8, 8, 15, 16, 19, 19, 19]
    ensures forall k | 0 <= k < 5 :: PieceMatches(p, v, cuts, k)
  {
    SchemePieces(p, v, cuts);
    assert PieceMatches(p, v, cuts, 4) by {
      forall m | 8 <= m < 15 ensures InClass(HostChar, v[m]) { assert IsLower(v[m]); }
    }
  }

  /** The dot, top-level domain, boundary and empty path pieces of `https://example.com`. */
  lemma WebsiteTail(p: seq<Atom>, v: string, cuts: seq<nat>)
    requires p == WEBSITE_URL && v == "https://example.com"
    requires cuts == [0, 4, 5, 8, 8, 15, 16, 19, 19, 19]
    ensures forall k | 5 <= k < 9 :: PieceMatches(p, v, cuts, k)
  {
    assert PieceMatches(p, v, cuts, 5) by { SliceIs(v, 15, "."); }
    assert PieceMatches(p, v, cuts, 6) by {
      forall m | 16 <= m < 19 ensures InClass(TldChar, v[m]) { assert IsLower(v[m]); }
    }
    assert PieceMatches(p, v, cuts, 7) by { assert WordAt(v, 18) && !WordAt(v, 19); }
    assert PieceMatches(p, v, cuts, 8);
  }

  /** `https://example.com` matches the website pattern, cut after the scheme, the host, the top-level domain and the boundary. */
  lemma WebsiteMatches(p: seq<Atom>, v: string)
    requires p == WEBSITE_URL && v == "https://example.com"
    ensures FullMatch(p, v)
  {
    var cuts: seq<nat> := [0, 4, 5, 8, 8, 15, 16, 19, 19, 19];
    WebsiteHead(p, v, cuts);
    WebsiteTail(p, v, cuts);
    MatchedBy(p, v, cuts);
  }

  /** `https://example.com` is a website URL. */
  lemma WebsiteAccepted(v: string)
    requires v == "https://example.com"
    ensures WebsiteError(v) == None
  {
    WebsiteMatches(WEBSITE_URL, v);
  }

  /** A website without `http://` or `https://` is refused. */
  lemma WebsiteWithoutSchemeRejected(v: string)
    requires v == "example.com"
    ensures WebsiteError(v) == Some(WEBSITE_INVALID)
  {
    assert !HasHttpScheme(v) by { assert v[0] == 'e'; }
    if WebsiteError(v) == None {
      WebsiteNeedsScheme(v);
    }
  }
}
