/**
 * The bearer-token gate (middlewares/auth.js): read the `Authorization` header,
 * take the token after `"Bearer "`, verify it, and on success attach the decoded
 * claims to the request as `req.user` before handing over to the next handler.
 *
 * RS256 signature checking is done by a library outside this model; it is the
 * parameter `verify`, which maps a token to its decoded claims or to `None` when
 * the library throws.
 */
module Auth {
  import opened Wrappers

  /** The decoded token claims the service reads: the caller's e-mail and role list. */
  datatype Payload = Payload(email: Option<string>, roles: Option<seq<string>>)

  /** What an Express middleware does: call `next()` once, or write a response and stop. */
  datatype Outcome = Next | Respond(status: int, message: string)

  const BearerPrefix: string := "Bearer "

  /** `s.startsWith(prefix)`: case-sensitive, exact. */
  predicate StartsWith(s: string, prefix: string)
  {
    |prefix| <= |s| && s[..|prefix|] == prefix
  }

  /** `s.split(sep)` for a one-character separator: the pieces between separators, empty ones included. */
  function Split(s: string, sep: char): (parts: seq<string>)
    ensures |parts| >= 1
    ensures sep in s ==> |parts| >= 2
    decreases |s|
  {
    if |s| == 0 then [""]
    else if s[0] == sep then [""] + Split(s[1..], sep)
    else
      var rest := Split(s[1..], sep);
      [[s[0]] + rest[0]] + rest[1..]
  }

  /** `parts.join(sep)`, the inverse of `Split`. */
  function Join(parts: seq<string>, sep: char): string
    requires |parts| >= 1
    decreases |parts|
  {
    if |parts| == 1 then parts[0] else parts[0] + [sep] + Join(parts[1..], sep)
  }

  /** Prepending a character to the first piece prepends it to the joined string. */
  lemma JoinExtendFirst(c: char, parts: seq<string>, sep: char)
    requires |parts| >= 1
    ensures Join([[c] + parts[0]] + parts[1..], sep) == [c] + Join(parts, sep)
  {
    var extended := [[c] + parts[0]] + parts[1..];
    assert extended[1..] == parts[1..];
  }

  /** An empty first piece puts a separator in front. */
  lemma JoinEmptyFirst(parts: seq<string>, sep: char)
    requires |parts| >= 1
    ensures Join([""] + parts, sep) == [sep] + Join(parts, sep)
  {
    assert ([""] + parts)[1..] == parts;
  }

  /** Joining the pieces again gives back the split string. */
  lemma {:induction false} SplitJoin(s: string, sep: char)
    ensures Join(Split(s, sep), sep) == s
    decreases |s|
  {
    if |s| > 0 {
      SplitJoin(s[1..], sep);
      if s[0] == sep {
        JoinEmptyFirst(Split(s[1..], sep), sep);
      } else {
        JoinExtendFirst(s[0], Split(s[1..], sep), sep);
      }
      assert [s[0]] + s[1..] == s;
    }
  }

  /** No piece contains the separator. */
  lemma {:induction false} SplitPiecesFree(s: string, sep: char)
    ensures forall i :: 0 <= i < |Split(s, sep)| ==> sep !in Split(s, sep)[i]
    decreases |s|
  {
    if |s| > 0 {
      SplitPiecesFree(s[1..], sep);
    }
  }

  /**
   * The first piece is the longest prefix free of the separator: it is a prefix,
   * holds no separator, and is either all of `s` or followed by a separator.
   */
  lemma {:induction false} FirstPiece(s: string, sep: char)
    ensures var p := Split(s, sep)[0];
      && p <= s && sep !in p
      && (p == s || (|p| < |s| && s[|p|] == sep))
    decreases |s|
  {
    if |s| > 0 && s[0] != sep {
      FirstPiece(s[1..], sep);
      var q := Split(s[1..], sep)[0];
      assert Split(s, sep)[0] == [s[0]] + q;
      assert [s[0]] + s[1..] == s;
    }
  }

  /** Splitting a string whose first separator sits at `k` peels off `s[..k]`. */
  lemma {:induction false} SplitAtFirstSeparator(s: string, sep: char, k: nat)
    requires k < |s| && s[k] == sep && sep !in s[..k]
    ensures Split(s, sep) == [s[..k]] + Split(s[k + 1..], sep)
    decreases k
  {
    if k > 0 {
      assert s[0] in s[..k];
      assert s[1..][..k - 1] == s[..k][1..];
      assert sep !in s[1..][..k - 1] by {
        assert forall c :: c in s[..k][1..] ==> c in s[..k];
      }
      SplitAtFirstSeparator(s[1..], sep, k - 1);
      var rest := Split(s[1..], sep);
      assert s[1..][k..] == s[k + 1..];
      assert rest == [s[1..k]] + Split(s[k + 1..], sep);
      assert [s[0]] + s[1..k] == s[..k];
      assert rest[1..] == Split(s[k + 1..], sep);
    }
  }

  /** `authHeader.split(" ")[1]`, for a header that passed the prefix test. */
  function Token(header: string): string
    requires StartsWith(header, BearerPrefix)
  {
    assert header[6] == ' ';
    Split(header, ' ')[1]
  }

  /**
   * The token is the text after `"Bearer "` up to the next space (or the end):
   * `"Bearer abc def"` yields `"abc"`, `"Bearer "` yields `""`.
   */
  lemma {:induction false} TokenAfterPrefix(header: string)
    requires StartsWith(header, BearerPrefix)
    ensures var t := Token(header); var rest := header[|BearerPrefix|..];
      && t <= rest && ' ' !in t
      && (t == rest || (|t| < |rest| && rest[|t|] == ' '))
  {
    assert header[..6] == "Bearer";
    assert ' ' !in header[..6];
    SplitAtFirstSeparator(header, ' ', 6);
    assert Token(header) == Split(header[7..], ' ')[0];
    FirstPiece(header[7..], ' ');
  }

  /** An incoming request: its (lower-cased) headers and the `user` slot the gate fills. */
  class Request {
    var headers: map<string, string>
    var user: Option<Payload>

    constructor (headers: map<string, string>)
      ensures this.headers == headers && user == None
    {
      this.headers := headers;
      user := None;
    }
  }

  /**
   * `authMiddleware`: a missing header, an empty one or one without the exact
   * prefix gives 401 "Token manquant"; a token the verifier rejects gives 401
   * "Token invalide"; otherwise `req.user` becomes the decoded claims and the
   * request goes on. Only `req.user` may change, and only on success.
   */
  method AuthMiddleware(req: Request, verify: string -> Option<Payload>) returns (outcome: Outcome)
    modifies req`user
    ensures "authorization" !in req.headers || !StartsWith(req.headers["authorization"], BearerPrefix)
      ==> outcome == Respond(401, "Token manquant") && req.user == old(req.user)
    ensures "authorization" in req.headers && StartsWith(req.headers["authorization"], BearerPrefix)
      ==> var decoded := verify(Token(req.headers["authorization"]));
        && (decoded == None ==> outcome == Respond(401, "Token invalide") && req.user == old(req.user))
        && (decoded.Some? ==> outcome == Next && req.user == decoded)
  {
    if "authorization" !in req.headers || !StartsWith(req.headers["authorization"], BearerPrefix) {
      return Respond(401, "Token manquant");
    }
    var token := Token(req.headers["authorization"]);
    var decoded := verify(token);
    if decoded == None {
      return Respond(401, "Token invalide");
    }
    req.user := decoded;
    outcome := Next;
  }

  /** The prefix test is case-sensitive: a lower-case scheme name is treated as no token. */
  lemma LowerCaseSchemeRejected(t: string)
    ensures !StartsWith("bearer " + t, BearerPrefix)
  {
    assert ("bearer " + t)[0] == 'b';
  }
}
