/** The shared helpers of `src/utils/utils.js`: phone formatting, password and
    email checks, the weekday table and the specialty colour table. */
module Utils {
  import opened Maybe
  import opened Text

  // ---------------------------------------------------------------------------
  // Phone numbers

  /** "(" + two digits + ") " + d[2..k] + "-" + d[k..]: the shape both phone
      formatters give to a run of digits, with the dash before position `k`. */
  function PhoneLayout(d: string, k: nat): string
    requires 2 <= k <= |d|
  {
    "(" + d[..2] + ") " + d[2..k] + "-" + d[k..]
  }

  /** The layout places the digits after fixed punctuation. */
  lemma PhoneLayoutPositions(d: string, k: nat)
    requires 2 <= k <= |d|
    ensures var r := PhoneLayout(d, k);
      && |r| == |d| + 4
      && r[0] == '(' && r[3] == ')' && r[4] == ' ' && r[k + 3] == '-'
      && r[1] == d[0] && r[2] == d[1]
      && (forall i :: 2 <= i < k ==> r[i + 3] == d[i])
      && (forall i :: k <= i < |d| ==> r[i + 4] == d[i])
  {
    var a := "(" + d[..2] + ") ";
    var b := a + d[2..k] + "-";
    assert |a| == 5 && a[0] == '(' && a[1] == d[0] && a[2] == d[1] && a[3] == ')' && a[4] == ' ';
    assert |b| == k + 4 && b[k + 3] == '-';
    assert forall i :: 2 <= i < k ==> b[i + 3] == d[i];
    assert PhoneLayout(d, k) == b + d[k..];
  }

  /** The layout keeps the digits, in order, and adds no other digit. */
  lemma PhoneLayoutDigits(d: string, k: nat)
    requires AllDigits(d) && 2 <= k <= |d|
    ensures Digits(PhoneLayout(d, k)) == d
  {
    var a := "(" + d[..2];
    var b := a + ") " + d[2..k];
    AreaCodeDigits(d);
    DigitsOfNoDigits(") ");
    DigitsOfNoDigits("-");
    DigitsOfAllDigits(d[2..k]);
    DigitsOfAllDigits(d[k..]);
    DigitsJoin(a, ") ", d[2..k]);
    DigitsJoin(b, "-", d[k..]);
    SplitAt(d, k);
  }

  /** "(" followed by the area code strips to the area code. */
  lemma AreaCodeDigits(d: string)
    requires AllDigits(d) && 2 <= |d|
    ensures Digits("(" + d[..2]) == d[..2]
  {
    DigitsOfNoDigits("(");
    DigitsOfAllDigits(d[..2]);
    DigitsConcat("(", d[..2]);
  }

  /** Cutting after the area code and before `k` loses nothing. */
  lemma SplitAt(d: string, k: nat)
    requires 2 <= k <= |d|
    ensures d[..2] + d[2..k] + d[k..] == d
  {
  }

  lemma PhoneLayoutShape(d: string, k: nat)
    requires AllDigits(d) && 2 <= k <= |d|
    ensures var r := PhoneLayout(d, k);
      |r| == |d| + 4 && r[0] == '(' && r[3] == ')' && r[4] == ' ' && r[k + 3] == '-' && Digits(r) == d
  {
    PhoneLayoutPositions(d, k);
    PhoneLayoutDigits(d, k);
  }

  /** `formatarTelefone`: '' for an absent or empty value; "(DD) DDDDD-DDDD" for
      11 digits, "(DD) DDDD-DDDD" for 10 digits; otherwise the value as given. */
  function FormatarTelefone(telefone: Option<string>): (r: string)
    ensures !Truthy(telefone) ==> r == ""
  {
    if !Truthy(telefone) then ""
    else
      var d := Digits(telefone.value);
      if |d| == 11 then PhoneLayout(d, 7)
      else if |d| == 10 then PhoneLayout(d, 6)
      else telefone.value
  }

  /** The three outcomes of `formatarTelefone`, stated by layout. */
  lemma FormatarTelefoneCases(telefone: string)
    ensures var d, r := Digits(telefone), FormatarTelefone(Some(telefone));
      && (telefone == "" ==> r == "")
      && (|d| == 11 ==> |r| == 15 && r[0] == '(' && r[3] == ')' && r[4] == ' ' && r[10] == '-' && Digits(r) == d)
      && (|d| == 10 ==> |r| == 14 && r[0] == '(' && r[3] == ')' && r[4] == ' ' && r[9] == '-' && Digits(r) == d)
      && (|d| != 10 && |d| != 11 ==> r == telefone)
  {
    var d := Digits(telefone);
    if telefone != "" && |d| == 11 {
      PhoneLayoutShape(d, 7);
    } else if telefone != "" && |d| == 10 {
      PhoneLayoutShape(d, 6);
    }
  }

  /** Formatting never changes which digits the number has. */
  lemma FormatarTelefoneKeepsDigits(telefone: Option<string>)
    ensures Digits(FormatarTelefone(telefone)) == Digits(OrEmpty(telefone))
  {
    if Truthy(telefone) {
      var d := Digits(telefone.value);
      if |d| == 11 {
        PhoneLayoutShape(d, 7);
      } else if |d| == 10 {
        PhoneLayoutShape(d, 6);
      }
    }
  }

  /** Formatting an already formatted number changes nothing. */
  lemma FormatarTelefoneIdempotent(telefone: Option<string>)
    ensures FormatarTelefone(Some(FormatarTelefone(telefone))) == FormatarTelefone(telefone)
  {
    var r := FormatarTelefone(telefone);
    FormatarTelefoneKeepsDigits(telefone);
    if Truthy(telefone) {
      var d := Digits(telefone.value);
      if |d| == 11 || |d| == 10 {
        DigitsIdempotent(telefone.value);
        assert Digits(r) == d;
        assert r != "";
      }
    }
  }

  // ---------------------------------------------------------------------------
  // Passwords

  /** The object `{ valida, erros }` that `validacaoSenha` returns. */
  datatype SenhaResultado = SenhaResultado(valida: bool, erros: seq<string>)

  /** The characters that count as special. */
  const Especiais: seq<char> := ['!', '@', '#', '*', '%', '$']

  predicate HasCharBetween(s: string, lo: char, hi: char) {
    exists i :: 0 <= i < |s| && lo <= s[i] <= hi
  }

  predicate HasSpecial(s: string) {
    exists i :: 0 <= i < |s| && s[i] in Especiais
  }

  /** The password rules: at least 8 characters, an upper-case letter A-Z, a
      lower-case letter a-z, a digit and one of `! @ # * % $`. */
  predicate SenhaForte(s: string) {
    && |s| >= 8
    && HasCharBetween(s, 'A', 'Z')
    && HasCharBetween(s, 'a', 'z')
    && HasCharBetween(s, '0', '9')
    && HasSpecial(s)
  }

  /** `validacaoSenha`: each failed rule records its message and returns
      `undefined` at once (None here), so the only object ever returned is
      `{ valida: true, erros: [] }`. */
  method ValidacaoSenha(senha: string) returns (r: Option<SenhaResultado>)
    ensures r.Some? <==> SenhaForte(senha)
    ensures r.Some? ==> r.value == SenhaResultado(true, [])
  {
    var erros: seq<string> := [];
    if |senha| < 8 {
      erros := erros + ["A senha precisa conter mais de 8 caracteres."];
      return None;
    }
    if !HasCharBetween(senha, 'A', 'Z') {
      erros := erros + ["A senha precisa conter pelo menos uma letra maiúscula."];
      return None;
    }
    if !HasCharBetween(senha, 'a', 'z') {
      erros := erros + ["A senha precisa conter pelo menos uma letra minúscula."];
      return None;
    }
    if !HasCharBetween(senha, '0', '9') {
      erros := erros + ["A senha precisa conter pelo menos um número."];
      return None;
    }
    if !HasSpecial(senha) {
      erros := erros + ["A senha precisa conter pelo menos um caractere especial."];
      return None;
    }
    // Every failure has returned already: the `erros.length > 0` branch,
    // which would give `{ valida: false }`, cannot be taken.
    assert |erros| == 0;
    return Some(SenhaResultado(true, []));
  }

  // ---------------------------------------------------------------------------
  // Email addresses

  /** The object `{ valido, email }` that `validacaoEmail` returns. */
  datatype EmailResultado = EmailResultado(valido: bool, email: string)

  /** A match of `[^\s@]+`: a non-empty run without whitespace and without '@'. */
  predicate Segment(x: string) {
    |x| > 0 && forall i :: 0 <= i < |x| ==> !IsWhitespace(x[i]) && x[i] != '@'
  }

  /** The pattern `^[^\s@]+@[^\s@]+\.[^\s@]+$`, read literally: three segments
      joined by '@' and '.'. */
  ghost predicate MatchesEmailRegex(s: string) {
    exists a, b, c :: Segment(a) && Segment(b) && Segment(c) && s == a + "@" + b + "." + c
  }

  /** The domain has a '.' that is neither its first nor its last character. */
  predicate HasInnerDot(d: string) {
    exists k :: 1 <= k < |d| - 1 && d[k] == '.'
  }

  /** The pattern as a direct scan: no whitespace, exactly one '@' with
      something before it, and an inner '.' after it. */
  predicate EmailShape(s: string) {
    && NoWhitespace(s)
    && match Find(s, '@')
       case None => false
       case Some(i) => 0 < i && '@' !in s[i + 1..] && HasInnerDot(s[i + 1..])
  }

  lemma EmailShapeMatches(s: string)
    requires EmailShape(s)
    ensures MatchesEmailRegex(s)
  {
    var i := Find(s, '@').value;
    var d := s[i + 1..];
    var k :| 1 <= k < |d| - 1 && d[k] == '.';
    EmailSplit(s, i, k);
    LocalSegment(s, i);
    DomainSegments(s, i, k);
    assert Segment(s[..i]) && Segment(d[..k]) && Segment(d[k + 1..]);
  }

  /** The address is its local part, '@', the domain's head, '.' and the
      domain's tail. */
  lemma EmailSplit(s: string, i: nat, k: nat)
    requires i < |s| && s[i] == '@' && 1 <= k < |s[i + 1..]| - 1 && s[i + 1..][k] == '.'
    ensures s == s[..i] + "@" + s[i + 1..][..k] + "." + s[i + 1..][k + 1..]
  {
    var d := s[i + 1..];
    assert d == d[..k] + "." + d[k + 1..];
    assert s == s[..i] + [s[i]] + d;
  }

  /** What precedes the first '@' is a segment. */
  lemma LocalSegment(s: string, i: nat)
    requires 0 < i < |s| && NoWhitespace(s) && '@' !in s[..i]
    ensures Segment(s[..i])
  {
    NoWhitespaceSlice(s, 0, i);
    assert s[0..i] == s[..i];
    SegmentOf(s[..i]);
  }

  /** Around an inner '.' of an '@'-free domain lie two segments. */
  lemma DomainSegments(s: string, i: nat, k: nat)
    requires i < |s| && NoWhitespace(s) && '@' !in s[i + 1..] && 1 <= k < |s[i + 1..]| - 1
    ensures Segment(s[i + 1..][..k]) && Segment(s[i + 1..][k + 1..])
  {
    var d := s[i + 1..];
    NoWhitespaceSlice(s, i + 1, |s|);
    assert s[i + 1..|s|] == d;
    NoWhitespaceSlice(d, 0, k);
    NoWhitespaceSlice(d, k + 1, |d|);
    assert d[0..k] == d[..k] && d[k + 1..|d|] == d[k + 1..];
    NoAtSlice(d, 0, k);
    NoAtSlice(d, k + 1, |d|);
    SegmentOf(d[..k]);
    SegmentOf(d[k + 1..]);
  }

  /** A slice of a string without whitespace has none. */
  lemma NoWhitespaceSlice(s: string, lo: nat, hi: nat)
    requires lo <= hi <= |s| && NoWhitespace(s)
    ensures NoWhitespace(s[lo..hi])
  {
    forall j | 0 <= j < hi - lo ensures !IsWhitespace(s[lo..hi][j]) {
      assert s[lo..hi][j] == s[lo + j];
    }
  }

  /** A slice of a string without '@' has none. */
  lemma NoAtSlice(s: string, lo: nat, hi: nat)
    requires lo <= hi <= |s| && '@' !in s
    ensures '@' !in s[lo..hi]
  {
  }

  /** A non-empty string with neither whitespace nor '@' is a segment. */
  lemma SegmentOf(x: string)
    requires |x| > 0 && NoWhitespace(x) && '@' !in x
    ensures Segment(x)
  {
    forall j | 0 <= j < |x| ensures x[j] != '@' {
      assert x[j] in x;
    }
  }

  lemma EmailMatchesShape(s: string, a: string, b: string, c: string)
    requires Segment(a) && Segment(b) && Segment(c) && s == a + "@" + b + "." + c
    ensures EmailShape(s)
  {
    var n := |a|;
    var d := b + "." + c;
    assert s == a + "@" + d;
    assert s[n] == '@';
    assert NoWhitespace(s) by {
      forall j | 0 <= j < |s| ensures !IsWhitespace(s[j]) {
        if j < n {
          assert s[j] == a[j];
        } else if j > n {
          assert s[j] == d[j - n - 1];
          if j - n - 1 < |b| {
            assert d[j - n - 1] == b[j - n - 1];
          } else if j - n - 1 > |b| {
            assert d[j - n - 1] == c[j - n - 2 - |b|];
          }
        }
      }
    }
    var i := Find(s, '@').value;
    assert i == n;
    assert s[n + 1..] == d;
    assert '@' !in d by {
      forall j | 0 <= j < |d| ensures d[j] != '@' {
        if j < |b| {
          assert d[j] == b[j];
        } else if j > |b| {
          assert d[j] == c[j - |b| - 1];
        }
      }
    }
    assert d[|b|] == '.';
  }

  /** The scan accepts exactly the strings the regular expression matches. */
  lemma EmailShapeIsRegex(s: string)
    ensures EmailShape(s) <==> MatchesEmailRegex(s)
  {
    if EmailShape(s) {
      EmailShapeMatches(s);
    }
    if MatchesEmailRegex(s) {
      var a, b, c :| Segment(a) && Segment(b) && Segment(c) && s == a + "@" + b + "." + c;
      EmailMatchesShape(s, a, b, c);
    }
  }

  /** `validacaoEmail`: echoes the address and says whether it matches the
      pattern. */
  function ValidacaoEmail(email: string): (r: EmailResultado)
    ensures r.email == email
    ensures r.valido <==> MatchesEmailRegex(email)
  {
    EmailShapeIsRegex(email);
    EmailResultado(EmailShape(email), email)
  }

  /** `validarEmails`: one result per address, in the same order. */
  function ValidarEmails(emails: seq<string>): (r: seq<EmailResultado>)
    ensures |r| == |emails|
    ensures forall i :: 0 <= i < |r| ==> r[i].email == emails[i] && (r[i].valido <==> MatchesEmailRegex(emails[i]))
  {
    seq(|emails|, i requires 0 <= i < |emails| => ValidacaoEmail(emails[i]))
  }

  /** The examples written next to `validacaoEmail`: 'exemplo@dominio.com'
      is accepted. */
  lemma EmailExampleAccepted()
    ensures ValidacaoEmail("exemplo@dominio.com").valido
  {
    assert Segment("exemplo") && Segment("dominio") && Segment("com");
    assert "exemplo@dominio.com" == "exemplo" + "@" + "dominio" + "." + "com";
    EmailMatchesShape("exemplo@dominio.com", "exemplo", "dominio", "com");
  }

  /** 'exemplo@dominio' is rejected: its domain has no '.'. */
  lemma EmailExampleNoDot()
    ensures !ValidacaoEmail("exemplo@dominio").valido
  {
    assert !HasInnerDot("dominio");
    assert "exemplo@dominio"[..7] == "exemplo";
    FindFirst("exemplo@dominio", '@', 7);
    assert "exemplo@dominio"[8..] == "dominio";
  }

  /** 'exemplo.com' is rejected: it has no '@'. */
  lemma EmailExampleNoAt()
    ensures !ValidacaoEmail("exemplo.com").valido
  {
    assert '@' !in "exemplo.com";
    assert Find("exemplo.com", '@').None?;
    assert !EmailShape("exemplo.com");
  }

  /** '@dominio.com' is rejected: nothing precedes the '@'. */
  lemma EmailExampleNoLocalPart()
    ensures !ValidacaoEmail("@dominio.com").valido
  {
    FindFirst("@dominio.com", '@', 0);
  }

  /** 'exemplo@.com' is rejected: the domain's only '.' is its first character. */
  lemma EmailExampleLeadingDot()
    ensures !ValidacaoEmail("exemplo@.com").valido
  {
    assert !HasInnerDot(".com");
    assert "exemplo@.com"[..7] == "exemplo";
    FindFirst("exemplo@.com", '@', 7);
    assert "exemplo@.com"[8..] == ".com";
  }

  // ---------------------------------------------------------------------------
  // Weekdays

  /** `diasDaSemana`. */
  const DiasDaSemana: map<string, nat> := map[
    "Domingo" := 0, "Segunda" := 1, "Terca" := 2, "Quarta" := 3,
    "Quinta" := 4, "Sexta" := 5, "Sabado" := 6]

  /** `{ sucesso: true, numero }` or `{ sucesso: false, erro }`. */
  datatype NumeroDia = Sucesso(numero: nat) | Falha(erro: string)

  /** `obterNumeroDia`. */
  function ObterNumeroDia(nomeDia: string): (r: NumeroDia)
    ensures r.Sucesso? <==> nomeDia in DiasDaSemana
    ensures r.Sucesso? ==> r.numero < 7
    ensures r.Falha? ==> r.erro == "Dia da semana inválido"
  {
    if nomeDia in DiasDaSemana then Sucesso(DiasDaSemana[nomeDia])
    else Falha("Dia da semana inválido")
  }

  /** The names, in the order of their numbers. */
  const NomesDosDias: seq<string> := ["Domingo", "Segunda", "Terca", "Quarta", "Quinta", "Sexta", "Sabado"]

  /** The seven names and the numbers 0..6 correspond one to one. */
  lemma ObterNumeroDiaBijective()
    ensures forall n :: 0 <= n < 7 ==> ObterNumeroDia(NomesDosDias[n]) == Sucesso(n)
    ensures forall a, b :: ObterNumeroDia(a).Sucesso? && ObterNumeroDia(a) == ObterNumeroDia(b) ==> a == b
  {
    forall n | 0 <= n < 7 ensures ObterNumeroDia(NomesDosDias[n]) == Sucesso(n) {
      assert NomesDosDias[n] in DiasDaSemana.Keys;
    }
    forall a, b | ObterNumeroDia(a).Sucesso? && ObterNumeroDia(a) == ObterNumeroDia(b) ensures a == b {
      NomeDoNumero(a);
      NomeDoNumero(b);
    }
  }

  /** Each table name is the name listed at its number. */
  lemma NomeDoNumero(a: string)
    requires a in DiasDaSemana
    ensures NomesDosDias[DiasDaSemana[a]] == a
  {
    assert a in DiasDaSemana.Keys;
  }

  // ---------------------------------------------------------------------------
  // Specialty colours

  /** `especialidadeCores`. */
  const EspecialidadeCores: map<string, string> := map[
    "Pilates" := "#ff6600", "Fisioterapia" := "#4CAF50", "Osteopatia" := "#2196F3",
    "RPG" := "#009688", "Microfisioterapia" := "#9C27B0", "Shiatsu" := "#673AB7",
    "Drenagem Linfática" := "#03A9F4", "Acupuntura" := "#E91E63"]

  const CorPadrao: string := "#3788d8"

  /** The background colours that take light text. */
  const CoresComTextoClaro: seq<string> := [
    "#ff6600", "#4CAF50", "#2196F3", "#9C27B0", "#673AB7", "#E91E63", "#009688", "#03A9F4"]

  datatype Cores = Cores(backgroundColor: string, textColor: string)

  /** `getColorForEspecialidade`: a known specialty gets its table colour with
      white text; anything else gets the default blue with black text. */
  function GetColorForEspecialidade(especialidade: string): (r: Cores)
    ensures especialidade in EspecialidadeCores ==> r == Cores(EspecialidadeCores[especialidade], "#fff")
    ensures especialidade !in EspecialidadeCores ==> r == Cores(CorPadrao, "#000")
  {
    var background :=
      if especialidade in EspecialidadeCores && EspecialidadeCores[especialidade] != ""
      then EspecialidadeCores[especialidade] else CorPadrao;
    var text := if background in CoresComTextoClaro then "#fff" else "#000";
    Cores(background, text)
  }

  /** Different specialties never share a colour, and none uses the default. */
  lemma EspecialidadeCoresDistinct(a: string, b: string)
    requires a in EspecialidadeCores && b in EspecialidadeCores && a != b
    ensures GetColorForEspecialidade(a).backgroundColor != GetColorForEspecialidade(b).backgroundColor
    ensures GetColorForEspecialidade(a).backgroundColor != CorPadrao
  {
  }
}
