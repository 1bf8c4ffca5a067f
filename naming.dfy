/**
 * The pure helpers of the photo-filing bot: the group classifier, the
 * generated photo file name, the folder layout under the save root and the
 * ledger row. Everything here is a function of its arguments.
 */
module Naming {
  import opened Options

  /** The six location codes offered as buttons, in keyboard order. */
  const PrincipalChoices: seq<string> := ["BR-OR", "BR-PON", "TALL-OR", "TALL-PON", "LOE-OR", "LOE-PON"]

  /** The first chunk written to a fresh ledger. */
  const CsvHeader: string := "Archivo,Frente,Ubicacion,FechaHora\n"

  /** Base name of the ledger file, kept directly under the save root. */
  const CsvFileName: string := "registro_fotos.csv"

  /** The save root used when no root is configured. */
  const DefaultSaveRoot: string := "./photos"

  /** The sentinel label of a code that belongs to no group. */
  const NoGroup: string := "N/A"

  /** The three group labels. */
  const Groups: set<string> := {"BREMEN", "TALLERES", "LO ERRAZURIZ"}

  // ---------------------------------------------------------------------
  // Group classifier

  /**
   * The group label of a location code, by prefix, tested in the order
   * "BR", "TALL", "LOE". The three prefixes are pairwise incompatible, so
   * each label is given exactly to the codes carrying its prefix, whatever
   * the order of the tests.
   */
  function FrenteFromCodigo(codigo: string): (r: string)
    ensures r in Groups || r == NoGroup
    ensures r == "BREMEN" <==> "BR" <= codigo
    ensures r == "TALLERES" <==> "TALL" <= codigo
    ensures r == "LO ERRAZURIZ" <==> "LOE" <= codigo
    ensures r == NoGroup <==> !("BR" <= codigo) && !("TALL" <= codigo) && !("LOE" <= codigo)
  {
    PrefixHead("BR", codigo);
    PrefixHead("TALL", codigo);
    PrefixHead("LOE", codigo);
    if "BR" <= codigo then "BREMEN"
    else if "TALL" <= codigo then "TALLERES"
    else if "LOE" <= codigo then "LO ERRAZURIZ"
    else NoGroup
  }

  /** A non-empty prefix fixes the first character. */
  lemma PrefixHead(p: string, s: string)
    requires p != []
    ensures p <= s ==> s != [] && s[0] == p[0]
  {
  }

  /** Every offered code is classified, two codes per group. */
  lemma ChoicesAreClassified()
    ensures forall c :: c in PrincipalChoices ==> FrenteFromCodigo(c) in Groups
    ensures FrenteFromCodigo(PrincipalChoices[0]) == FrenteFromCodigo(PrincipalChoices[1]) == "BREMEN"
    ensures FrenteFromCodigo(PrincipalChoices[2]) == FrenteFromCodigo(PrincipalChoices[3]) == "TALLERES"
    ensures FrenteFromCodigo(PrincipalChoices[4]) == FrenteFromCodigo(PrincipalChoices[5]) == "LO ERRAZURIZ"
  {
  }

  // ---------------------------------------------------------------------
  // Decimal rendering of the user id (Python's `str` on an int)

  predicate IsDigit(ch: char)
  {
    '0' <= ch <= '9'
  }

  function DigitChar(d: nat): (ch: char)
    requires d < 10
    ensures IsDigit(ch)
  {
    ['0', '1', '2', '3', '4', '5', '6', '7', '8', '9'][d]
  }

  function DigitValue(ch: char): (d: nat)
    requires IsDigit(ch)
    ensures d < 10 && DigitChar(d) == ch
  {
    (ch as int - '0' as int) as nat
  }

  /** Decimal digits of `n`, most significant first, without leading zeros. */
  function NatToString(n: nat): (s: string)
    ensures s != [] && forall i :: 0 <= i < |s| ==> IsDigit(s[i])
  {
    if n < 10 then [DigitChar(n)] else NatToString(n / 10) + [DigitChar(n % 10)]
  }

  /** Python's `str(n)`: a minus sign for negative values, then the digits. */
  function IntToString(n: int): (s: string)
    ensures s != [] && '_' !in s && '/' !in s
    ensures s[0] == '-' <==> n < 0
  {
    if n < 0 then "-" + NatToString(-n) else NatToString(n)
  }

  /** The value of a non-empty string of decimal digits. */
  function ParseDigits(s: string): nat
    requires s != [] && forall i :: 0 <= i < |s| ==> IsDigit(s[i])
  {
    if |s| == 1 then DigitValue(s[0])
    else ParseDigits(s[..|s| - 1]) * 10 + DigitValue(s[|s| - 1])
  }

  /** Reading back the digits of `n` gives `n`. */
  lemma {:induction false} ParseNatToString(n: nat)
    ensures ParseDigits(NatToString(n)) == n
  {
    var s := NatToString(n);
    if n >= 10 {
      assert s[..|s| - 1] == NatToString(n / 10);
      ParseNatToString(n / 10);
    }
  }

  /** Distinct ids render as distinct strings. */
  lemma IntToStringInjective(a: int, b: int)
    requires IntToString(a) == IntToString(b)
    ensures a == b
  {
    var s := IntToString(a);
    if a < 0 {
      assert s[1..] == NatToString(-a) == NatToString(-b);
      NatToStringInjective(-a, -b);
    } else {
      NatToStringInjective(a, b);
    }
  }

  /** Distinct naturals have distinct decimal digits. */
  lemma NatToStringInjective(m: nat, n: nat)
    requires NatToString(m) == NatToString(n)
    ensures m == n
  {
    ParseNatToString(m);
    ParseNatToString(n);
  }

  // ---------------------------------------------------------------------
  // Generated file name

  /** The user handle in the file name: the username when it is non-empty, else `user_<id>`. */
  function SafeUser(username: Option<string>, id: int): (r: string)
    ensures r != []
  {
    if username.Some? && username.value != [] then username.value else "user_" + IntToString(id)
  }

  /** The photo file name `<safe_user>_<id>_<fecha>.jpg`. */
  function FileName(username: Option<string>, id: int, fecha: string): (r: string)
    ensures |r| >= 4 && r[|r| - 4..] == ".jpg"
    ensures SafeUser(username, id) + "_" <= r
    ensures var k := |SafeUser(username, id)| + 1;
            k + |IntToString(id)| <= |r| && r[k..k + |IntToString(id)|] == IntToString(id)
  {
    var r := SafeUser(username, id) + "_" + IntToString(id) + "_" + fecha + ".jpg";
    assert r == (SafeUser(username, id) + "_") + IntToString(id) + ("_" + fecha + ".jpg");
    r
  }

  /** The part of `w` after its last `sep` (all of `w` when it holds none). */
  function TailAfterLast(sep: char, w: string): (t: string)
    ensures sep !in t && |t| <= |w|
  {
    if w == [] || w[|w| - 1] == sep then [] else TailAfterLast(sep, w[..|w| - 1]) + [w[|w| - 1]]
  }

  /** The part of `w` before its first `sep` (all of `w` when it holds none). */
  function HeadBeforeFirst(sep: char, w: string): (h: string)
    ensures sep !in h && |h| <= |w|
  {
    if w == [] || w[0] == sep then [] else [w[0]] + HeadBeforeFirst(sep, w[1..])
  }

  lemma {:induction false} TailAfterLastOf(sep: char, a: string, x: string)
    requires sep !in x
    ensures TailAfterLast(sep, a + [sep] + x) == x
  {
    var w := a + [sep] + x;
    if x != [] {
      assert w[..|w| - 1] == a + [sep] + x[..|x| - 1];
      TailAfterLastOf(sep, a, x[..|x| - 1]);
    }
  }

  lemma {:induction false} HeadBeforeFirstOf(sep: char, x: string, a: string)
    requires sep !in x
    ensures HeadBeforeFirst(sep, x + [sep] + a) == x
  {
    var w := x + [sep] + a;
    if x != [] {
      assert w[1..] == x[1..] + [sep] + a;
      HeadBeforeFirstOf(sep, x[1..], a);
    }
  }

  /**
   * A string ending in `sep` followed by a `sep`-free tail splits there in
   * exactly one way.
   */
  lemma SplitAtLast(sep: char, a: string, x: string, b: string, y: string)
    requires sep !in x && sep !in y
    requires a + [sep] + x == b + [sep] + y
    ensures a == b && x == y
  {
    var w := a + [sep] + x;
    TailAfterLastOf(sep, a, x);
    TailAfterLastOf(sep, b, y);
    assert a == w[..|a|] == b;
  }

  /** A string starting with a `sep`-free head followed by `sep` splits there in exactly one way. */
  lemma SplitAtFirst(sep: char, x: string, a: string, y: string, b: string)
    requires sep !in x && sep !in y
    requires x + [sep] + a == y + [sep] + b
    ensures x == y && a == b
  {
    var w := x + [sep] + a;
    HeadBeforeFirstOf(sep, x, a);
    HeadBeforeFirstOf(sep, y, b);
    assert a == w[|x| + 1..] == b;
  }

  /**
   * The file name determines the user handle, the id and the timestamp, as
   * long as the timestamp holds no underscore (the bot's format
   * `%Y-%m-%d %H-%M-%S` has none). So two photos of one user taken in
   * different seconds, or of two users, never share a name.
   */
  lemma FileNameDeterminesFields(u1: Option<string>, id1: int, f1: string,
                                 u2: Option<string>, id2: int, f2: string)
    requires '_' !in f1 && '_' !in f2
    ensures FileName(u1, id1, f1) == FileName(u2, id2, f2) ==>
              SafeUser(u1, id1) == SafeUser(u2, id2) && id1 == id2 && f1 == f2
  {
    if FileName(u1, id1, f1) == FileName(u2, id2, f2) {
      var s1, d1 := SafeUser(u1, id1), IntToString(id1);
      var s2, d2 := SafeUser(u2, id2), IntToString(id2);
      var n := FileName(u1, id1, f1);
      assert n == s1 + "_" + d1 + "_" + f1 + ".jpg";
      assert n == s2 + "_" + d2 + "_" + f2 + ".jpg";
      assert s1 + "_" + d1 + ['_'] + f1 == n[..|n| - 4] == s2 + "_" + d2 + ['_'] + f2;
      SplitAtLast('_', s1 + "_" + d1, f1, s2 + "_" + d2, f2);
      assert s1 + ['_'] + d1 == s2 + ['_'] + d2;
      SplitAtLast('_', s1, d1, s2, d2);
      IntToStringInjective(id1, id2);
    }
  }

  // ---------------------------------------------------------------------
  // Folder layout (POSIX path joining of two components)

  /**
   * Joining two path components: an absolute `b` replaces `a`; otherwise a
   * separator is inserted unless `a` is empty or already ends in one.
   */
  function Join(a: string, b: string): (r: string)
    ensures "/" <= b ==> r == b
    ensures !("/" <= b) ==> r == a + b || r == a + "/" + b
    ensures !("/" <= b) ==> (r == a + b <==> a == [] || a[|a| - 1] == '/')
  {
    if "/" <= b then b
    else if a == [] || a[|a| - 1] == '/' then a + b
    else a + "/" + b
  }

  /** A joined path ends with its last component. */
  lemma JoinEndsWith(a: string, b: string)
    ensures |b| <= |Join(a, b)| && Join(a, b)[|Join(a, b)| - |b|..] == b
  {
    var r := Join(a, b);
    if !("/" <= b) {
      if r == a + b {
        assert r[|a|..] == b;
      } else {
        assert r[|a| + 1..] == b;
      }
    }
  }

  /** What the save root contributes in front of a relative component. */
  function RootPrefix(root: string): string
  {
    if root == [] || root[|root| - 1] == '/' then root else root + "/"
  }

  /** The folder of one location code: `<root>/<code>`. */
  function SubDir(root: string, code: string): (r: string)
    ensures |code| <= |r| && r[|r| - |code|..] == code
    ensures !("/" <= code) ==> r == RootPrefix(root) + code
  {
    Join(root, code)
  }

  /** Where a photo is written: `<root>/<code>/<nombre>`. */
  function DestPath(root: string, code: string, nombre: string): (r: string)
    ensures |nombre| <= |r| && r[|r| - |nombre|..] == nombre
  {
    JoinEndsWith(SubDir(root, code), nombre);
    Join(SubDir(root, code), nombre)
  }

  /** Where the ledger lives: `<root>/registro_fotos.csv`. */
  function CsvLog(root: string): (r: string)
    ensures r == RootPrefix(root) + CsvFileName
    ensures r[|r| - 4..] == ".csv"
  {
    PrefixHead("/", CsvFileName);
    Join(root, CsvFileName)
  }

  /** A code that the bot accepts names a single relative folder. */
  lemma ChoicesAreFolderNames(code: string)
    requires code in PrincipalChoices
    ensures code != [] && code[0] in {'B', 'T', 'L'} && '/' !in code
  {
  }

  /**
   * For an offered code the photo lands directly inside the code's folder,
   * which itself sits directly under the save root.
   */
  lemma DestPathShape(root: string, code: string, nombre: string)
    requires code in PrincipalChoices
    requires nombre != [] && nombre[0] != '/'
    ensures SubDir(root, code) == RootPrefix(root) + code
    ensures DestPath(root, code, nombre) == SubDir(root, code) + "/" + nombre
  {
    ChoicesAreFolderNames(code);
    PrefixHead("/", code);
    PrefixHead("/", nombre);
    var sub := SubDir(root, code);
    assert sub == RootPrefix(root) + code;
    assert sub != [] && sub[|sub| - 1] == code[|code| - 1] != '/';
  }

  /** The destination path is the root's prefix followed by `<code>/<nombre>`. */
  lemma DestPathSplit(root: string, code: string, nombre: string)
    requires code in PrincipalChoices
    requires nombre != [] && nombre[0] != '/'
    ensures DestPath(root, code, nombre) == RootPrefix(root) + (code + ['/'] + nombre)
  {
    DestPathShape(root, code, nombre);
  }

  /**
   * The destination path determines the code and the file name: photos filed
   * under different codes, or with different names, never overwrite each other.
   */
  lemma DestPathDeterminesFolder(root: string, c1: string, n1: string, c2: string, n2: string)
    requires c1 in PrincipalChoices && c2 in PrincipalChoices
    requires n1 != [] && n1[0] != '/' && n2 != [] && n2[0] != '/'
    ensures DestPath(root, c1, n1) == DestPath(root, c2, n2) ==> c1 == c2 && n1 == n2
  {
    if DestPath(root, c1, n1) == DestPath(root, c2, n2) {
      DestPathSplit(root, c1, n1);
      DestPathSplit(root, c2, n2);
      var p := RootPrefix(root);
      var w := DestPath(root, c1, n1);
      assert c1 + ['/'] + n1 == w[|p|..] == c2 + ['/'] + n2;
      ChoicesAreFolderNames(c1);
      ChoicesAreFolderNames(c2);
      SplitAtFirst('/', c1, n1, c2, n2);
    }
  }

  /**
   * No photo is ever written over the ledger file, whatever the code and
   * whatever the username: a photo path ends in `.jpg`, the ledger's in `.csv`.
   */
  lemma DestPathIsNotLedger(root: string, code: string, u: Option<string>, id: int, fecha: string)
    ensures DestPath(root, code, FileName(u, id, fecha)) != CsvLog(root)
  {
    var nombre := FileName(u, id, fecha);
    var d := DestPath(root, code, nombre);
    var l := CsvLog(root);
    assert d[|d| - 4..] == nombre[|nombre| - 4..] == ".jpg";
    assert d[|d| - 3] == 'j' != 'c' == l[|l| - 3];
  }

  /** A Telegram username: letters, digits and underscores only. */
  predicate IsTelegramUsername(s: string)
  {
    forall i :: 0 <= i < |s| ==> s[i] == '_' || IsDigit(s[i]) || 'a' <= s[i] <= 'z' || 'A' <= s[i] <= 'Z'
  }

  /**
   * With a Telegram username (or none) the file name is a relative name,
   * which `DestPathShape` and `DestPathDeterminesFolder` ask of it.
   */
  lemma FileNameIsRelative(u: Option<string>, id: int, fecha: string)
    requires u.None? || IsTelegramUsername(u.value)
    ensures FileName(u, id, fecha) != [] && FileName(u, id, fecha)[0] != '/'
  {
    var n := FileName(u, id, fecha);
    var su := SafeUser(u, id);
    assert n[0] == su[0];
  }

  // ---------------------------------------------------------------------
  // Ledger row

  /** One ledger row, `nombre,frente,code,fecha` and a newline; fields are not escaped. */
  function LedgerLine(nombre: string, frente: string, code: string, fecha: string): (r: string)
    ensures |r| > 0 && r[|r| - 1] == '\n'
    ensures nombre + "," <= r
  {
    nombre + "," + frente + "," + code + "," + fecha + "\n"
  }

  /** How often `ch` occurs in `s`. */
  function Count(s: string, ch: char): nat
  {
    if s == [] then 0 else Count(s[..|s| - 1], ch) + (if s[|s| - 1] == ch then 1 else 0)
  }

  lemma {:induction false} CountAppend(a: string, b: string, ch: char)
    ensures Count(a + b, ch) == Count(a, ch) + Count(b, ch)
  {
    if b != [] {
      assert (a + b)[..|a + b| - 1] == a + b[..|b| - 1];
      CountAppend(a, b[..|b| - 1], ch);
    } else {
      assert a + b == a;
    }
  }

  lemma {:induction false} CountAbsent(s: string, ch: char)
    requires ch !in s
    ensures Count(s, ch) == 0
  {
    if s != [] {
      CountAbsent(s[..|s| - 1], ch);
    }
  }

  /** A row whose fields hold no comma and no newline has three commas and one newline. */
  lemma RowCounts(nombre: string, frente: string, code: string, fecha: string)
    requires ',' !in nombre && ',' !in frente && ',' !in code && ',' !in fecha
    requires '\n' !in nombre && '\n' !in frente && '\n' !in code && '\n' !in fecha
    ensures Count(LedgerLine(nombre, frente, code, fecha), ',') == 3
    ensures Count(LedgerLine(nombre, frente, code, fecha), '\n') == 1
  {
    var r := LedgerLine(nombre, frente, code, fecha);
    forall ch | ch == ',' || ch == '\n'
      ensures Count(r, ch) == Count(nombre, ch) + Count(frente, ch) + Count(code, ch) + Count(fecha, ch)
                              + (if ch == ',' then 3 else 1)
    {
      CountAppend(nombre, ",", ch);
      CountAppend(nombre + ",", frente, ch);
      CountAppend(nombre + "," + frente, ",", ch);
      CountAppend(nombre + "," + frente + ",", code, ch);
      CountAppend(nombre + "," + frente + "," + code, ",", ch);
      CountAppend(nombre + "," + frente + "," + code + ",", fecha, ch);
      CountAppend(nombre + "," + frente + "," + code + "," + fecha, "\n", ch);
      assert Count(",", ch) == (if ch == ',' then 1 else 0) by { assert ","[..0] == []; }
      assert Count("\n", ch) == (if ch == '\n' then 1 else 0) by { assert "\n"[..0] == []; }
    }
    CountAbsent(nombre, ','); CountAbsent(frente, ','); CountAbsent(code, ','); CountAbsent(fecha, ',');
    CountAbsent(nombre, '\n'); CountAbsent(frente, '\n'); CountAbsent(code, '\n'); CountAbsent(fecha, '\n');
  }

  /** The header is itself a row of four columns: three commas and one newline. */
  lemma HeaderShape()
    ensures Count(CsvHeader, ',') == 3 && Count(CsvHeader, '\n') == 1
  {
    assert CsvHeader == LedgerLine("Archivo", "Frente", "Ubicacion", "FechaHora");
    RowCounts("Archivo", "Frente", "Ubicacion", "FechaHora");
  }

  /**
   * When no field holds a comma or a newline, a row is one complete line
   * with as many columns as the header. (A field holding a comma would add
   * a column: nothing is escaped.)
   */
  lemma LedgerLineShape(nombre: string, frente: string, code: string, fecha: string)
    requires ',' !in nombre && ',' !in frente && ',' !in code && ',' !in fecha
    requires '\n' !in nombre && '\n' !in frente && '\n' !in code && '\n' !in fecha
    ensures Count(LedgerLine(nombre, frente, code, fecha), ',') == Count(CsvHeader, ',')
    ensures Count(LedgerLine(nombre, frente, code, fecha), '\n') == 1
  {
    RowCounts(nombre, frente, code, fecha);
    HeaderShape();
  }
}
