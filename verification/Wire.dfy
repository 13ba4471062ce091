/** Requests and responses as the bytes of their C structures, and the casts that read them back. */
module Wire {
  import opened Messages
  import opened Movies
  import opened Sales

  const ACTION_MOVIE_LIST: Byte := 1
  const ACTION_BUY_TICKET: Byte := 2
  const ACTION_GET_TICKET: Byte := 3
  const ACTION_ERROR: Byte := 59

  /** `sizeof(movie_t)`: two texts, a counter, two bytes of padding, twenty tickets. */
  const MOVIE_SIZE := 284

  type Bytes4 = b: Bytes | |b| == 4 witness [0, 0, 0, 0]
  type I32 = n: int | -0x8000_0000 <= n < 0x8000_0000

  datatype Response =
    | Listing(movies: Catalog)
    | Sold(ticket: int)
    | Found(ticket: int, movie: Movie)
    | Refused(code: int)

  datatype Option<+T> = None | Some(value: T)

  // Words

  function PutI32(n: int): Bytes4 {
    var w := n % 0x1_0000_0000;
    PutU16(w % 0x1_0000) + PutU16(w / 0x1_0000)
  }

  function GetI32(b: Bytes4): I32 {
    var low: int, high: int := GetU16(b[..2]), GetU16(b[2..]);
    var w := low + 0x1_0000 * high;
    if w >= 0x8000_0000 then w - 0x1_0000_0000 else w
  }

  lemma I32RoundTrip(n: I32)
    ensures GetI32(PutI32(n)) == n
  {
    var w := n % 0x1_0000_0000;
    assert PutI32(n)[..2] == PutU16(w % 0x1_0000) && PutI32(n)[2..] == PutU16(w / 0x1_0000);
    U16RoundTrip(w % 0x1_0000);
    U16RoundTrip(w / 0x1_0000);
  }

  // Tickets and movies

  function PutTickets(ts: seq<int>): (b: Bytes)
    ensures |b| == 4 * |ts|
  {
    if ts == [] then [] else PutI32(ts[0]) + PutTickets(ts[1..])
  }

  function GetTickets(b: Bytes): (ts: seq<int>)
    requires |b| % 4 == 0
    ensures |ts| == |b| / 4
  {
    if b == [] then [] else [GetI32(b[..4])] + GetTickets(b[4..])
  }

  ghost predicate Representable(db: seq<Movie>) {
    forall i, k | 0 <= i < |db| && 0 <= k < MOVIE_MAX_TICKETS :: -0x8000_0000 <= db[i].tickets[k] < 0x8000_0000
  }

  lemma {:induction false} TicketsRoundTrip(ts: seq<int>)
    requires forall k | 0 <= k < |ts| :: -0x8000_0000 <= ts[k] < 0x8000_0000
    ensures GetTickets(PutTickets(ts)) == ts
  {
    if ts == [] {
    } else {
      var b := PutTickets(ts);
      assert b[..4] == PutI32(ts[0]) && b[4..] == PutTickets(ts[1..]);
      I32RoundTrip(ts[0]);
      TicketsRoundTrip(ts[1..]);
    }
  }

  function PutMovie(m: Movie): (b: Bytes)
    ensures |b| == MOVIE_SIZE
  {
    m.name + m.time + PutU16(m.remaining) + [0, 0] + PutTickets(m.tickets)
  }

  function GetMovie(b: Bytes): Option<Movie>
    requires |b| == MOVIE_SIZE
  {
    var remaining := GetU16(b[200..202]);
    if remaining > MOVIE_MAX_TICKETS then None
    else Some(Movie(b[..100], b[100..200], remaining, GetTickets(b[204..])))
  }

  lemma MovieRoundTrip(m: Movie)
    requires Representable([m])
    ensures GetMovie(PutMovie(m)) == Some(m)
  {
    var b := PutMovie(m);
    assert b[..100] == m.name && b[100..200] == m.time;
    assert b[200..202] == PutU16(m.remaining) && b[204..] == PutTickets(m.tickets);
    U16RoundTrip(m.remaining);
    assert [m][0] == m;
    TicketsRoundTrip(m.tickets);
  }

  function PutMovies(db: seq<Movie>): (b: Bytes)
    ensures |b| == MOVIE_SIZE * |db|
  {
    if db == [] then [] else PutMovie(db[0]) + PutMovies(db[1..])
  }

  /** Reads `n` movies from the front of the bytes, or fails when they run out. */
  function GetMovies(b: Bytes, n: nat): (r: Option<seq<Movie>>)
    ensures r.Some? ==> |r.value| == n && |b| >= MOVIE_SIZE * n
  {
    if n == 0 then Some([])
    else if |b| < MOVIE_SIZE then None
    else
      match GetMovie(b[..MOVIE_SIZE])
      case None => None
      case Some(m) =>
        match GetMovies(b[MOVIE_SIZE..], n - 1)
        case None => None
        case Some(ms) => Some([m] + ms)
  }

  lemma {:induction false} MoviesRoundTrip(db: seq<Movie>, rest: Bytes)
    requires Representable(db)
    ensures GetMovies(PutMovies(db) + rest, |db|) == Some(db)
  {
    if db == [] {
    } else {
      var b := PutMovies(db) + rest;
      FirstMovie(db, rest);
      assert Representable([db[0]]) && Representable(db[1..]);
      MovieRoundTrip(db[0]);
      MoviesRoundTrip(db[1..], rest);
      assert [db[0]] + db[1..] == db;
    }
  }

  lemma FirstMovie(db: seq<Movie>, rest: Bytes)
    requires db != []
    ensures var b := PutMovies(db) + rest;
      b[..MOVIE_SIZE] == PutMovie(db[0]) && b[MOVIE_SIZE..] == PutMovies(db[1..]) + rest
  {
    Regroup(PutMovie(db[0]), PutMovies(db[1..]), rest);
    SplitFront(PutMovie(db[0]), PutMovies(db[1..]) + rest);
  }

  lemma SplitFront(a: Bytes, b: Bytes)
    ensures (a + b)[..|a|] == a && (a + b)[|a|..] == b
  {
  }

  // Requests

  function PutRequest(r: Request): Content
    requires !r.Unknown?
  {
    match r
    case ListMovies => [ACTION_MOVIE_LIST]
    case BuyTicket(movie) => [ACTION_BUY_TICKET, 0] + PutU16(movie % 0x1_0000)
    case GetTicket(ticket) => [ACTION_GET_TICKET, 0, 0, 0] + PutI32(ticket)
  }

  /** The bytes that the server's handlers look at. The handlers do not look at the length: behind a content that is
      too short for its type they read on, here zeros. */
  function Looked(b: Bytes): (r: Bytes)
    ensures |r| >= 8
  {
    b + [0, 0, 0, 0, 0, 0, 0, 0]
  }

  /** The server's switch on the first byte, and the cast of each case. */
  function GetRequest(b: Bytes): Request {
    var r := Looked(b);
    if r[0] == ACTION_MOVIE_LIST then ListMovies
    else if r[0] == ACTION_BUY_TICKET then BuyTicket(GetU16(r[2..4]))
    else if r[0] == ACTION_GET_TICKET then GetTicket(GetI32(r[4..8]))
    else Unknown
  }

  /** Whether a request is known depends on its first byte alone. */
  lemma KnownByType(b: Bytes)
    ensures !GetRequest(b).Unknown? <==>
      b != [] && 1 <= b[0] <= 3
  {
  }

  /** A movie number is sent in 16 bits, so the client's -1 for "movie 0" arrives as 65535. */
  lemma RequestRoundTrip(r: Request)
    requires !r.Unknown? && (r.GetTicket? ==> -0x8000_0000 <= r.ticket < 0x8000_0000)
    ensures GetRequest(PutRequest(r)) == if r.BuyTicket? then BuyTicket(r.movie % 0x1_0000) else r
  {
    match r
    case ListMovies =>
    case BuyTicket(movie) =>
      assert Looked(PutRequest(r))[2..4] == PutU16(movie % 0x1_0000);
      U16RoundTrip(movie % 0x1_0000);
    case GetTicket(ticket) =>
      assert Looked(PutRequest(r))[4..8] == PutI32(ticket);
      I32RoundTrip(ticket);
  }

  // Responses

  function PutResponse(r: Response): Bytes {
    match r
    case Listing(movies) => [ACTION_MOVIE_LIST, 0] + PutU16(|movies|) + PutMovies(movies)
    case Sold(ticket) => [ACTION_BUY_TICKET, 0, 0, 0] + PutI32(ticket)
    case Found(ticket, movie) => [ACTION_GET_TICKET, 0, 0, 0] + PutI32(ticket) + PutMovie(movie)
    case Refused(code) => [ACTION_ERROR, 0, 0, 0] + PutI32(code)
  }

  /** The length argument of `ipc_send` keeps only 16 bits of the size. */
  function Cut(b: Bytes): Content {
    b[..|b| % 0x1_0000]
  }

  /** What the client's handlers read, provided the content holds all that they read. */
  function GetResponse(b: Bytes): Option<Response> {
    if |b| < 4 then None
    else if b[0] == ACTION_MOVIE_LIST then
      match GetMovies(b[4..], GetU16(b[2..4]))
      case None => None
      case Some(movies) => Some(Listing(movies))
    else if |b| < 8 then None
    else if b[0] == ACTION_BUY_TICKET then Some(Sold(GetI32(b[4..8])))
    else if b[0] == ACTION_ERROR then Some(Refused(GetI32(b[4..8])))
    else if b[0] == ACTION_GET_TICKET && |b| >= 8 + MOVIE_SIZE then
      match GetMovie(b[8..8 + MOVIE_SIZE])
      case None => None
      case Some(movie) => Some(Found(GetI32(b[4..8]), movie))
    else None
  }

  ghost predicate Sendable(r: Response) {
    match r
    case Listing(movies) => Representable(movies)
    case Sold(ticket) => -0x8000_0000 <= ticket < 0x8000_0000
    case Found(ticket, movie) => -0x8000_0000 <= ticket < 0x8000_0000 && Representable([movie])
    case Refused(code) => -0x8000_0000 <= code < 0x8000_0000
  }

  /** A response survives the wire exactly when it is not a listing of more than 230 movies. */
  lemma ResponseRoundTripIff(r: Response)
    requires Sendable(r)
    ensures GetResponse(Cut(PutResponse(r))) == Some(r) <==> (r.Listing? ==> |r.movies| <= 230)
  {
    var b := PutResponse(r);
    if r.Listing? {
      ListingRoundTripIff(r.movies);
    } else {
      assert Cut(b) == b;
      assert b[4..8] == PutI32(if r.Refused? then r.code else r.ticket);
      I32RoundTrip(if r.Refused? then r.code else r.ticket);
      if r.Found? {
        assert b[8..8 + MOVIE_SIZE] == PutMovie(r.movie);
        MovieRoundTrip(r.movie);
      }
    }
  }

  lemma ListingRoundTripIff(movies: Catalog)
    requires Representable(movies)
    ensures GetResponse(Cut(PutResponse(Listing(movies)))) == Some(Listing(movies)) <==> |movies| <= 230
  {
    var b := PutResponse(Listing(movies));
    assert |b| == 4 + MOVIE_SIZE * |movies|;
    if |movies| <= 230 {
      assert Cut(b) == b;
      assert b[2..4] == PutU16(|movies|) && b[4..] == PutMovies(movies);
      U16RoundTrip(|movies|);
      MoviesRoundTrip(movies, []);
      assert PutMovies(movies) + [] == PutMovies(movies);
    } else if |Cut(b)| >= 4 {
      assert Cut(b)[2..4] == b[2..4] == PutU16(|movies|);
      U16RoundTrip(|movies|);
    }
  }

  // The protocol byte by byte: types, offsets and byte order as numbers

  /** A 16-bit and a 32-bit word from their bytes in memory. */
  function Unsigned(a: Byte, b: Byte): int {
    a + 256 * b
  }

  function Signed(a: Byte, b: Byte, c: Byte, d: Byte): int {
    var w := a + 256 * b + 65536 * c + 16777216 * d;
    if d < 128 then w else w - 4294967296
  }

  /** The signed word at position k. */
  function SignedAt(b: Bytes, k: nat): int
    requires k + 4 <= |b|
  {
    Signed(b[k], b[k + 1], b[k + 2], b[k + 3])
  }

  lemma WordBytes(b: Bytes4)
    ensures GetI32(b) == SignedAt(b, 0)
  {
  }

  lemma WordWritten(n: I32)
    ensures SignedAt(PutI32(n), 0) == n
  {
    I32RoundTrip(n);
    WordBytes(PutI32(n));
  }

  /** What the server makes of a content, whatever stands in the padding and behind. */
  lemma RequestBytes(
    x: Byte, y: Byte, z: Byte, low: Byte, high: Byte, a: Byte, b: Byte, c: Byte, d: Byte, rest: Bytes)
    ensures GetRequest([1] + rest) == ListMovies
    ensures GetRequest([2, x, low, high] + rest) == BuyTicket(low + 256 * high)
    ensures GetRequest([3, x, y, z, a, b, c, d] + rest) == GetTicket(Signed(a, b, c, d))
  {
    assert Looked([2, x, low, high] + rest)[2..4] == [low, high];
    assert Looked([3, x, y, z, a, b, c, d] + rest)[4..8] == [a, b, c, d];
    WordBytes([a, b, c, d]);
  }

  /** Zeros behind a content make no difference, so one that is too short reads as if zeros stood behind it. */
  lemma ZerosBehind(b: Bytes)
    ensures GetRequest(b + [0]) == GetRequest(b)
  {
    var r, q := Looked(b), Looked(b + [0]);
    forall k | 0 <= k < 8
      ensures q[k] == r[k]
    {
    }
    assert q[2..4] == r[2..4] && q[4..8] == r[4..8];
  }

  /** What a client sends. */
  lemma RequestWritten(movie: int, ticket: I32)
    ensures PutRequest(ListMovies) == [1]
    ensures var b := PutRequest(BuyTicket(movie));
      |b| == 4 && b[0] == 2 && Unsigned(b[2], b[3]) == movie % 65536
    ensures var b := PutRequest(GetTicket(ticket));
      |b| == 8 && b[0] == 3 && SignedAt(b, 4) == ticket
  {
    U16RoundTrip(movie % 0x1_0000);
    assert PutRequest(GetTicket(ticket))[4..8] == PutI32(ticket);
    WordWritten(ticket);
  }

  /** The 284 bytes of a movie: name, time, counter, two bytes of padding, twenty tickets. */
  ghost predicate MovieBytes(b: Bytes, m: Movie) {
    && |b| == 284
    && (forall k | 0 <= k < 100 :: b[k] == m.name[k])
    && (forall k | 0 <= k < 100 :: b[100 + k] == m.time[k])
    && Unsigned(b[200], b[201]) == m.remaining
    && forall k | 0 <= k < 20 :: SignedAt(b, 204 + 4 * k) == m.tickets[k]
  }

  lemma {:induction false} TicketWritten(ts: seq<int>, k: nat)
    requires k < |ts| && forall j | 0 <= j < |ts| :: -0x8000_0000 <= ts[j] < 0x8000_0000
    ensures SignedAt(PutTickets(ts), 4 * k) == ts[k]
  {
    var b := PutTickets(ts);
    assert b[..4] == PutI32(ts[0]) && b[4..] == PutTickets(ts[1..]);
    if k == 0 {
      WordWritten(ts[0]);
    } else {
      TicketWritten(ts[1..], k - 1);
    }
  }

  lemma MovieWritten(m: Movie)
    requires Representable([m])
    ensures MovieBytes(PutMovie(m), m)
  {
    var b := PutMovie(m);
    assert [m][0] == m;
    assert b[..100] == m.name && b[100..200] == m.time;
    assert b[200..202] == PutU16(m.remaining) && b[204..] == PutTickets(m.tickets);
    forall k: nat | k < 20
      ensures SignedAt(b, 204 + 4 * k) == m.tickets[k]
    {
      TicketWritten(m.tickets, k);
    }
  }

  lemma {:induction false} MoviesWritten(db: seq<Movie>, i: nat)
    requires Representable(db) && i < |db|
    ensures MovieBytes(PutMovies(db)[284 * i..284 * i + 284], db[i])
  {
    var b := PutMovies(db);
    assert Representable([db[0]]) && Representable(db[1..]);
    if i == 0 {
      MovieWritten(db[0]);
      assert b[..284] == PutMovie(db[0]);
    } else {
      MoviesWritten(db[1..], i - 1);
      assert b[284..] == PutMovies(db[1..]);
      assert b[284..][284 * (i - 1)..284 * (i - 1) + 284] == b[284 * i..284 * i + 284];
    }
  }

  lemma MovieInListing(b: Bytes, i: nat)
    requires 288 + 284 * i <= |b|
    ensures b[4..][284 * i..284 * i + 284] == b[4 + 284 * i..288 + 284 * i]
  {
  }

  /** What the server sends: each kind of response starts with its number and has its parts in their places. */
  lemma ResponseWritten(r: Response)
    requires Sendable(r)
    ensures var b := PutResponse(r);
      match r
      case Listing(movies) =>
        && |b| == 4 + 284 * |movies| && b[0] == 1 && Unsigned(b[2], b[3]) == |movies|
        && forall i: nat | i < |movies| :: MovieBytes(b[4 + 284 * i..288 + 284 * i], movies[i])
      case Sold(ticket) => |b| == 8 && b[0] == 2 && SignedAt(b, 4) == ticket
      case Found(ticket, movie) =>
        |b| == 292 && b[0] == 3 && SignedAt(b, 4) == ticket && MovieBytes(b[8..292], movie)
      case Refused(code) => |b| == 8 && b[0] == 59 && SignedAt(b, 4) == code
  {
    var b := PutResponse(r);
    if r.Listing? {
      forall i: nat | i < |r.movies|
        ensures MovieBytes(b[4 + 284 * i..288 + 284 * i], r.movies[i])
      {
        MoviesWritten(r.movies, i);
        assert b[4..] == PutMovies(r.movies);
        MovieInListing(b, i);
      }
    } else {
      assert b[4..8] == PutI32(if r.Refused? then r.code else r.ticket);
      WordWritten(if r.Refused? then r.code else r.ticket);
      if r.Found? {
        assert b[8..] == PutMovie(r.movie);
        MovieWritten(r.movie);
      }
    }
  }

  /** What a client reads of a response with a word, whatever stands in the padding and behind. */
  lemma ResponseBytes(x: Byte, y: Byte, z: Byte, a: Byte, b: Byte, c: Byte, d: Byte, rest: Bytes)
    ensures GetResponse([2, x, y, z, a, b, c, d] + rest) == Some(Sold(Signed(a, b, c, d)))
    ensures GetResponse([59, x, y, z, a, b, c, d] + rest) == Some(Refused(Signed(a, b, c, d)))
  {
    assert ([2, x, y, z, a, b, c, d] + rest)[4..8] == [a, b, c, d];
    assert ([59, x, y, z, a, b, c, d] + rest)[4..8] == [a, b, c, d];
    WordBytes([a, b, c, d]);
  }

  /** What it reads of a listing. */
  lemma ListingRead(x: Byte, movies: Catalog, rest: Bytes)
    requires Representable(movies)
    ensures GetResponse([1, x] + PutU16(|movies|) + PutMovies(movies) + rest) == Some(Listing(movies))
  {
    var more := PutMovies(movies) + rest;
    Regroup([1, x] + PutU16(|movies|), PutMovies(movies), rest);
    Parts([1, x], PutU16(|movies|), more);
    U16RoundTrip(|movies|);
    MoviesRoundTrip(movies, rest);
  }

  /** What it reads of a ticket with its movie. */
  lemma FoundRead(x: Byte, y: Byte, z: Byte, ticket: I32, movie: Movie, rest: Bytes)
    requires Representable([movie])
    ensures GetResponse([3, x, y, z] + PutI32(ticket) + PutMovie(movie) + rest) == Some(Found(ticket, movie))
  {
    Regroup([3, x, y, z] + PutI32(ticket), PutMovie(movie), rest);
    Parts([3, x, y, z], PutI32(ticket), PutMovie(movie) + rest);
    Parts([3, x, y, z] + PutI32(ticket), PutMovie(movie), rest);
    I32RoundTrip(ticket);
    MovieRoundTrip(movie);
  }
}
