/** The logic of the account menu, `src/components/Account.jsx`: the role
    label, the display name, the dark-mode toggle and the admin modal. */
module Account {
  import opened Maybe
  import opened Text

  /** The user fields the menu reads; the user itself may be absent. */
  datatype Usuario = Usuario(nome: Option<string>, name: Option<string>, role: Option<string>, cargo: Option<string>)

  /** `user?.nome || user?.name || 'Usuário'`. */
  function Nome(user: Option<Usuario>): (r: string)
    ensures r != ""
    ensures user.Some? && Truthy(user.value.nome) ==> r == user.value.nome.value
    ensures user.Some? && !Truthy(user.value.nome) && Truthy(user.value.name) ==> r == user.value.name.value
    ensures (user.None? || (!Truthy(user.value.nome) && !Truthy(user.value.name))) ==> r == "Usuário"
  {
    if user.Some? && Truthy(user.value.nome) then user.value.nome.value
    else if user.Some? && Truthy(user.value.name) then user.value.name.value
    else "Usuário"
  }

  /** `user?.role || user?.cargo || ''`. */
  function RoleRaw(user: Option<Usuario>): (r: string)
    ensures user.Some? && Truthy(user.value.role) ==> r == user.value.role.value
    ensures user.Some? && !Truthy(user.value.role) && Truthy(user.value.cargo) ==> r == user.value.cargo.value
    ensures r == "" <==> user.None? || (!Truthy(user.value.role) && !Truthy(user.value.cargo))
  {
    if user.Some? && Truthy(user.value.role) then user.value.role.value
    else if user.Some? && Truthy(user.value.cargo) then user.value.cargo.value
    else ""
  }

  /** The role label: tested in the order PROF, SECRET, ADMIN on the
      upper-cased role; an unmatched role is shown as written. */
  function Papel(user: Option<Usuario>): (r: string)
    ensures RoleRaw(user) == "" ==> r == ""
    ensures RoleRaw(user) != "" ==>
      var up := ToUpper(RoleRaw(user));
      && (Contains(up, "PROF") ==> r == "Professor(a)")
      && (!Contains(up, "PROF") && Contains(up, "SECRET") ==> r == "Secretaria")
      && (!Contains(up, "PROF") && !Contains(up, "SECRET") && Contains(up, "ADMIN") ==> r == "Administrador")
      && (!Contains(up, "PROF") && !Contains(up, "SECRET") && !Contains(up, "ADMIN") ==> r == RoleRaw(user))
  {
    var roleRaw := RoleRaw(user);
    if roleRaw == "" then ""
    else
      var up := ToUpper(roleRaw);
      if Contains(up, "PROF") then "Professor(a)"
      else if Contains(up, "SECRET") then "Secretaria"
      else if Contains(up, "ADMIN") then "Administrador"
      else roleRaw
  }

  /** The classification as a rule table: the first keyword, in table
      order, that the upper-cased role contains picks the label. */
  const Regras: seq<(string, string)> := [("PROF", "Professor(a)"), ("SECRET", "Secretaria"), ("ADMIN", "Administrador")]

  /** The label of the first rule whose keyword `up` contains, if any. */
  function PrimeiraRegra(up: string, regras: seq<(string, string)>): (r: Option<string>)
    ensures r.None? <==> forall k :: 0 <= k < |regras| ==> !Contains(up, regras[k].0)
    ensures r.Some? ==> exists k :: (0 <= k < |regras| && Contains(up, regras[k].0) && r.value == regras[k].1
      && forall j :: 0 <= j < k ==> !Contains(up, regras[j].0))
  {
    if regras == [] then None
    else if Contains(up, regras[0].0) then Some(regras[0].1)
    else
      var resto := PrimeiraRegra(up, regras[1..]);
      if resto.Some? then
        var k :| 0 <= k < |regras[1..]| && Contains(up, regras[1..][k].0) && resto.value == regras[1..][k].1
          && forall j :: 0 <= j < k ==> !Contains(up, regras[1..][j].0);
        assert regras[k + 1] == regras[1..][k];
        assert forall j :: 1 <= j < k + 1 ==> regras[j] == regras[1..][j - 1];
        resto
      else resto
  }

  /** `Papel` is the rule table applied to the upper-cased role, falling
      back to the role as written, and '' when there is no role. */
  lemma PapelPorRegras(user: Option<Usuario>)
    ensures Papel(user) == if RoleRaw(user) == "" then "" else PrimeiraRegra(ToUpper(RoleRaw(user)), Regras).GetOr(RoleRaw(user))
  {
    var up := ToUpper(RoleRaw(user));
    var r1, r2 := Regras[1..], Regras[1..][1..];
    assert r1 == [("SECRET", "Secretaria"), ("ADMIN", "Administrador")];
    assert r2 == [("ADMIN", "Administrador")];
    assert r2[1..] == [];
    assert PrimeiraRegra(up, r2) == if Contains(up, "ADMIN") then Some("Administrador") else None;
    assert PrimeiraRegra(up, r1) == if Contains(up, "SECRET") then Some("Secretaria") else PrimeiraRegra(up, r2);
    assert PrimeiraRegra(up, Regras) == if Contains(up, "PROF") then Some("Professor(a)") else PrimeiraRegra(up, r1);
  }

  /** Case does not matter to the classification, PROF wins over SECRET and
      SECRET over ADMIN when a role names several, and `cargo` is read only
      when `role` is missing or empty. */
  lemma PapelExemplos()
    ensures Papel(Some(Usuario(None, None, Some("prof"), None))) == "Professor(a)"
    ensures Papel(Some(Usuario(None, None, Some("PROF_SECRET"), None))) == "Professor(a)"
    ensures Papel(Some(Usuario(None, None, Some("SECRET_ADMIN"), None))) == "Secretaria"
    ensures Papel(Some(Usuario(None, None, Some("ADMIN"), Some("PROFESSOR")))) == "Administrador"
    ensures Papel(Some(Usuario(None, None, Some(""), Some("SECRET")))) == "Secretaria"
    ensures Papel(None) == ""
  {
    PapelExemploProfessor();
    PapelExemploProfessorSecretaria();
    PapelExemploSecretariaAdministrador();
    PapelExemploAdministrador();
    PapelExemploSecretaria();
  }

  lemma PapelExemploProfessor()
    ensures Papel(Some(Usuario(None, None, Some("prof"), None))) == "Professor(a)"
  {
    assert ToUpper("prof") == "PROF";
    assert StartsWith(ToUpper("prof")[0..], "PROF");
  }

  lemma PapelExemploProfessorSecretaria()
    ensures Papel(Some(Usuario(None, None, Some("PROF_SECRET"), None))) == "Professor(a)"
  {
    assert ToUpper("PROF_SECRET") == "PROF_SECRET";
    assert StartsWith(ToUpper("PROF_SECRET")[0..], "PROF");
  }

  lemma PapelExemploSecretariaAdministrador()
    ensures Papel(Some(Usuario(None, None, Some("SECRET_ADMIN"), None))) == "Secretaria"
  {
    assert ToUpper("SECRET_ADMIN") == "SECRET_ADMIN";
    assert StartsWith(ToUpper("SECRET_ADMIN")[0..], "SECRET");
    assert !Contains("SECRET_ADMIN", "PROF") by { NaoContem("SECRET_ADMIN", "PROF"); }
  }

  lemma PapelExemploAdministrador()
    ensures Papel(Some(Usuario(None, None, Some("ADMIN"), Some("PROFESSOR")))) == "Administrador"
  {
    assert ToUpper("ADMIN") == "ADMIN";
    assert StartsWith(ToUpper("ADMIN")[0..], "ADMIN");
    assert !Contains("ADMIN", "PROF") by { NaoContem("ADMIN", "PROF"); }
    assert !Contains("ADMIN", "SECRET") by { NaoContem("ADMIN", "SECRET"); }
  }

  lemma PapelExemploSecretaria()
    ensures Papel(Some(Usuario(None, None, Some(""), Some("SECRET")))) == "Secretaria"
  {
    assert ToUpper("SECRET") == "SECRET";
    assert StartsWith(ToUpper("SECRET")[0..], "SECRET");
    assert !Contains("SECRET", "PROF") by { NaoContem("SECRET", "PROF"); }
  }

  /** Helper: a pattern whose first letter does not occur in `s` is not
      contained in it. */
  lemma NaoContem(s: string, pattern: string)
    requires |pattern| > 0 && pattern[0] !in s
    ensures !Contains(s, pattern)
  {
  }

  // ---------------------------------------------------------------------------
  // Dark mode

  /** The dark-mode flag, the stored `theme` and whether the document root
      carries the `dark` class. */
  datatype Tema = Tema(modoEscuro: bool, tema: Option<string>, classeDark: bool)

  /** The flag, the stored theme and the class agree. */
  predicate Sincronizado(t: Tema) {
    t.tema == Some(if t.modoEscuro then "dark" else "light") && t.classeDark == t.modoEscuro
  }

  /** `toggleModoEscuro` on the three pieces of state. */
  function Alternado(t: Tema): (r: Tema)
    ensures r.modoEscuro == !t.modoEscuro
    ensures Sincronizado(r)
    ensures (r.tema == Some("dark")) <==> r.modoEscuro
  {
    var novo := !t.modoEscuro;
    Tema(novo, Some(if novo then "dark" else "light"), novo)
  }

  /** Toggling twice restores a synchronised state. */
  lemma AlternarDuasVezes(t: Tema)
    requires Sincronizado(t)
    ensures Alternado(Alternado(t)) == t
  {
  }

  class MenuConta {
    var menuAberto: bool
    var modoEscuro: bool
    var tema: Option<string>
    var classeDark: bool
    var isAdminModalOpen: bool

    function EstadoTema(): Tema
      reads this
    {
      Tema(modoEscuro, tema, classeDark)
    }

    /** The menu starts closed and dark mode starts on exactly when the
        stored theme is 'dark'. */
    constructor (temaSalvo: Option<string>, classeDarkInicial: bool)
      ensures modoEscuro <==> temaSalvo == Some("dark")
      ensures tema == temaSalvo && classeDark == classeDarkInicial
      ensures !menuAberto && !isAdminModalOpen
    {
      menuAberto := false;
      modoEscuro := temaSalvo == Some("dark");
      tema := temaSalvo;
      classeDark := classeDarkInicial;
      isAdminModalOpen := false;
    }

    /** `toggleModoEscuro`. */
    method ToggleModoEscuro()
      modifies this`modoEscuro, this`tema, this`classeDark
      ensures EstadoTema() == Alternado(old(EstadoTema()))
    {
      var newValue := !modoEscuro;
      modoEscuro := newValue;
      if newValue {
        classeDark := true;
        tema := Some("dark");
      } else {
        classeDark := false;
        tema := Some("light");
      }
    }

    /** The avatar button toggles the menu. */
    method ToggleMenu()
      modifies this`menuAberto
      ensures menuAberto == !old(menuAberto)
    {
      menuAberto := !menuAberto;
    }

    /** `openAdminModal`: closes the menu and opens the modal. */
    method OpenAdminModal()
      modifies this`menuAberto, this`isAdminModalOpen
      ensures !menuAberto && isAdminModalOpen
    {
      menuAberto := false;
      isAdminModalOpen := true;
    }

    /** The backdrop behind the open menu closes it on a click. */
    method FecharMenu()
      modifies this`menuAberto
      ensures !menuAberto
    {
      menuAberto := false;
    }

    /** The admin modal's `onClose`. */
    method FecharModal()
      modifies this`isAdminModalOpen
      ensures !isAdminModalOpen
    {
      isAdminModalOpen := false;
    }
  }
}
