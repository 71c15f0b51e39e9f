/** The profile editor of `src/pages/Teacher/Profile/index.jsx`: the live
    phone mask, the specialty toggle, the dirty check, cancel/restore, the
    photo-file checks and the save flow (role endpoint and outgoing DTO). */
module Profile {
  import opened Maybe
  import opened Text
  import Utils

  // ---------------------------------------------------------------------------
  // Phone mask

  /** The most digits the mask keeps. */
  const MaxDigitosTelefone := 11

  /** The `maxLength` of the phone input. */
  const MaxLengthTelefone := 16

  /** The digits the mask keeps: `value.replace(/\D/g, '').slice(0, 11)`. */
  function DigitosMantidos(value: string): (d: string)
    ensures AllDigits(d)
    ensures |d| == if |Digits(value)| < MaxDigitosTelefone then |Digits(value)| else MaxDigitosTelefone
    ensures d == Digits(value)[..|d|]
  {
    var todos := Digits(value);
    if |todos| <= MaxDigitosTelefone then todos else todos[..MaxDigitosTelefone]
  }

  /** The layout for each digit count: nothing, "(dd", "(dd) rest",
      "(dd) dddd-rest", and "(dd) ddddd-dddd" for eleven. */
  function Mascarar(d: string): string
    requires |d| <= MaxDigitosTelefone
  {
    if |d| == 0 then ""
    else if |d| <= 2 then "(" + d
    else if |d| <= 6 then "(" + d[..2] + ") " + d[2..]
    else if |d| <= 10 then "(" + d[..2] + ") " + d[2..6] + "-" + d[6..]
    else "(" + d[..2] + ") " + d[2..7] + "-" + d[7..]
  }

  /** `handleTelefoneChange`: the text the phone field shows for what was typed. */
  function MascaraTelefone(value: string): (r: string)
    ensures r == "" <==> |Digits(value)| == 0
    ensures r != "" ==> r[0] == '('
  {
    Mascarar(DigitosMantidos(value))
  }

  lemma AllDigitsSlice(d: string, i: nat, j: nat)
    requires AllDigits(d) && i <= j <= |d|
    ensures AllDigits(d[i..j])
  {
  }

  /** The mask adds punctuation only: its digits are exactly the kept ones. */
  lemma {:induction false} DigitsMascarar(d: string)
    requires AllDigits(d) && |d| <= MaxDigitosTelefone
    ensures Digits(Mascarar(d)) == d
  {
    if |d| == 0 {
    } else if |d| <= 2 {
      DigitsConcat("(", d);
      DigitsOfNoDigits("(");
      DigitsOfAllDigits(d);
    } else if |d| <= 6 {
      var p1, p2, p3, p4 := "(", d[..2], ") ", d[2..];
      AllDigitsSlice(d, 0, 2);
      AllDigitsSlice(d, 2, |d|);
      DigitsOfNoDigits(p1);
      DigitsOfNoDigits(p3);
      DigitsOfAllDigits(p2);
      DigitsOfAllDigits(p4);
      DigitsConcat(p1, p2);
      DigitsConcat(p1 + p2, p3);
      DigitsConcat(p1 + p2 + p3, p4);
      assert p2 + p4 == d;
    } else if |d| <= 10 {
      assert Mascarar(d) == Utils.PhoneLayout(d, 6);
      Utils.PhoneLayoutDigits(d, 6);
    } else {
      assert Mascarar(d) == Utils.PhoneLayout(d, 7);
      Utils.PhoneLayoutDigits(d, 7);
    }
  }

  /** The digits in the masked text are the first eleven digits typed. */
  lemma DigitsMascaraTelefone(value: string)
    ensures Digits(MascaraTelefone(value)) == DigitosMantidos(value)
  {
    DigitsMascarar(DigitosMantidos(value));
  }

  /** Typing over the masked text changes nothing: masking is idempotent. */
  lemma MascaraTelefoneIdempotente(value: string)
    ensures MascaraTelefone(MascaraTelefone(value)) == MascaraTelefone(value)
  {
    var d := DigitosMantidos(value);
    DigitsMascaraTelefone(value);
    assert DigitosMantidos(MascaraTelefone(value)) == d;
  }

  /** At most eleven digits plus four punctuation characters: the mask always
      fits the field's 16-character limit. */
  lemma MascaraTelefoneCabe(value: string)
    ensures |MascaraTelefone(value)| <= 15 < MaxLengthTelefone
  {
  }

  /** For ten or eleven digits the live mask and `formatarTelefone` agree. */
  lemma MascaraIgualFormatarTelefone(value: string)
    requires |Digits(value)| == 10 || |Digits(value)| == 11
    ensures MascaraTelefone(value) == Utils.FormatarTelefone(Some(value))
  {
    assert value != "";
    var d := Digits(value);
    assert DigitosMantidos(value) == d;
  }

  // ---------------------------------------------------------------------------
  // Specialties

  /** `toggleSpecialty`: removes the id when selected, adds it otherwise. */
  function AlternarEspecialidade(selecionadas: set<int>, id: int): (r: set<int>)
    ensures id in r <==> id !in selecionadas
    ensures forall x :: x != id ==> (x in r <==> x in selecionadas)
  {
    if id in selecionadas then selecionadas - {id} else selecionadas + {id}
  }

  /** Toggling the same id twice restores the selection. */
  lemma AlternarDuasVezes(selecionadas: set<int>, id: int)
    ensures AlternarEspecialidade(AlternarEspecialidade(selecionadas, id), id) == selecionadas
  {
    var r := AlternarEspecialidade(AlternarEspecialidade(selecionadas, id), id);
    assert forall x :: x in r <==> x in selecionadas;
  }

  /** `specialtiesChanged` without the role test: different sizes, or a
      selected id missing from the original set. */
  predicate TamanhoOuInclusaoDifere(selecionadas: set<int>, originais: set<int>) {
    |selecionadas| != |originais| || !(forall id :: id in selecionadas ==> id in originais)
  }

  /** For finite sets the size-and-inclusion test is exactly inequality. */
  lemma TamanhoOuInclusaoSseDiferentes(selecionadas: set<int>, originais: set<int>)
    ensures TamanhoOuInclusaoDifere(selecionadas, originais) <==> selecionadas != originais
  {
    if |selecionadas| == |originais| && (forall id :: id in selecionadas ==> id in originais) {
      var resto := originais - selecionadas;
      assert originais == selecionadas + resto;
      assert |originais| == |selecionadas| + |resto|;
      assert resto == {};
      assert originais == selecionadas;
    }
  }

  // ---------------------------------------------------------------------------
  // Edited record and dirty check

  datatype UserData = UserData(
    nome: string,
    cargo: string,
    role: string,
    email: string,
    foto: string,
    dataNascimento: string,
    telefone: string,
    receberNotificacao: bool)

  const Professor := "PROFESSOR"

  /** The signed-in user as the auth context holds it: the fields the editor
      reads, each of which may be missing. */
  datatype Usuario = Usuario(
    id: int,
    nome: Option<string>,
    cargo: Option<string>,
    role: Option<string>,
    foto: Option<string>,
    email: Option<string>,
    idade: Option<string>,
    dataNascimento: Option<string>,
    telefone: Option<string>,
    notificacaoAtiva: Option<bool>,
    receberNotificacao: Option<bool>)

  /** `user?.role || ''`. */
  function RoleDe(u: Option<Usuario>): string {
    if u.Some? then OrEmpty(u.value.role) else ""
  }

  /** The load effect: the record the form shows for the signed-in user, or
      for no user. Missing texts become '', a photo name becomes its image URL
      (the bundled icon without one), the birth date is `idade` or else
      `dataNascimento`, the phone is shown through the shared formatter, and
      the notification flag falls back from `notificacaoAtiva` to
      `receberNotificacao` to false. */
  function Registro(u: Option<Usuario>, baseUrl: string, token: string, icone: string): (r: UserData)
    ensures r.role == RoleDe(u)
    ensures u.None? ==> r == UserData("", "", "", "", icone, "", "", false)
    ensures Digits(r.telefone) == Digits(if u.Some? then OrEmpty(u.value.telefone) else "")
  {
    match u
    case None => UserData("", "", "", "", icone, "", "", false)
    case Some(v) =>
      Utils.FormatarTelefoneKeepsDigits(v.telefone);
      UserData(
        OrEmpty(v.nome), OrEmpty(v.cargo), OrEmpty(v.role), OrEmpty(v.email),
        if Truthy(v.foto) then UrlFoto(baseUrl, v.foto.value, token) else icone,
        if Truthy(v.idade) then v.idade.value else OrEmpty(v.dataNascimento),
        Utils.FormatarTelefone(v.telefone),
        v.notificacaoAtiva.GetOr(v.receberNotificacao.GetOr(false)))
  }

  /** The `hasChanged` effect: the record differs from the loaded one, or a
      professor's specialty set differs from the loaded set. */
  function Alterado(dados: UserData, originais: UserData, selecionadas: set<int>, especialidadesOriginais: set<int>): (r: bool)
    ensures r <==> dados != originais || (dados.role == Professor && selecionadas != especialidadesOriginais)
  {
    TamanhoOuInclusaoSseDiferentes(selecionadas, especialidadesOriginais);
    dados != originais || (dados.role == Professor && TamanhoOuInclusaoDifere(selecionadas, especialidadesOriginais))
  }

  // ---------------------------------------------------------------------------
  // Photo file

  /** What the file input hands over: its MIME type and size in bytes. */
  datatype Arquivo = Arquivo(tipo: string, tamanho: int)

  /** 5 MB. */
  const TamanhoMaximoFoto := 5 * 1024 * 1024

  /** The photo rule: an image type no larger than 5 MB. */
  predicate ArquivoAceito(f: Arquivo) {
    StartsWith(f.tipo, "image/") && f.tamanho <= TamanhoMaximoFoto
  }

  datatype ResultadoArquivo = NenhumArquivo | FormatoInvalido | ArquivoMuitoGrande | FotoSelecionada

  // ---------------------------------------------------------------------------
  // Saving

  /** The REST collection of each role the profile can be saved for. */
  function Colecao(role: string): Option<string> {
    if role == "PROFESSOR" then Some("professores")
    else if role == "ADMINISTRADOR" then Some("administradores")
    else if role == "SECRETARIA" then Some("secretarias")
    else None
  }

  /** The role switch of `saveChanges`: the profile endpoint and the photo
      upload endpoint; None for any other role (the switch throws). */
  function Endpoints(role: string, id: int): (r: Option<(string, string)>)
    ensures r.Some? <==> role in {"PROFESSOR", "ADMINISTRADOR", "SECRETARIA"}
    ensures r.Some? ==> r.value.1 == r.value.0 + "/uploadFoto"
  {
    match Colecao(role)
      case None => None
      case Some(c) =>
        var endpoint := "api/" + c + "/" + IntToString(id);
        Some((endpoint, endpoint + "/uploadFoto"))
  }

  /** Different users of one role are sent to different endpoints. */
  lemma EndpointsDistintos(role: string, id1: int, id2: int)
    requires Endpoints(role, id1).Some? && id1 != id2
    ensures Endpoints(role, id1) != Endpoints(role, id2)
  {
    var pre := "api/" + Colecao(role).value + "/";
    var s1, s2 := IntToString(id1), IntToString(id2);
    if Endpoints(role, id1) == Endpoints(role, id2) {
      assert pre + s1 == pre + s2;
      assert s1 == (pre + s1)[|pre|..];
      assert s2 == (pre + s2)[|pre|..];
      IntToStringInjective(id1, id2);
    }
  }

  /** The body of the PATCH request. */
  datatype UserDto = UserDto(
    nome: string,
    email: string,
    idade: string,
    telefone: string,
    notificacaoAtiva: bool,
    especialidadeIds: Option<set<int>>)

  /** `userDTO`: the name trimmed, the phone reduced to digits, and the
      specialty ids only for a professor. */
  function MontarDto(dados: UserData, role: string, selecionadas: set<int>): (dto: UserDto)
    ensures dto.nome == Trim(dados.nome)
    ensures AllDigits(dto.telefone) && Digits(dto.telefone) == Digits(dados.telefone)
    ensures dto.especialidadeIds.Some? <==> role == Professor
    ensures dto.especialidadeIds.Some? ==> dto.especialidadeIds.value == selecionadas
    ensures dto.email == dados.email && dto.idade == dados.dataNascimento
    ensures dto.notificacaoAtiva == dados.receberNotificacao
  {
    DigitsIdempotent(dados.telefone);
    UserDto(
      Trim(dados.nome), dados.email, dados.dataNascimento, Digits(dados.telefone),
      dados.receberNotificacao, if role == Professor then Some(selecionadas) else None)
  }

  /** A phone typed through the mask reaches the server as the first eleven
      digits that were typed. */
  lemma DtoTelefoneDaMascara(dados: UserData, role: string, selecionadas: set<int>, digitado: string)
    requires dados.telefone == MascaraTelefone(digitado)
    ensures MontarDto(dados, role, selecionadas).telefone == DigitosMantidos(digitado)
  {
    DigitsMascaraTelefone(digitado);
  }

  /** `{ ...data, telefone: userDTO.telefone }`: the server's reply with the
      phone digits that were sent. */
  function Mesclado(resposta: Usuario, dto: UserDto): (u: Usuario)
    ensures u.telefone == Some(dto.telefone)
    ensures u.(telefone := resposta.telefone) == resposta
  {
    resposta.(telefone := Some(dto.telefone))
  }

  /** The role switch read from the signed-in user; without one, `user.role`
      throws and the save fails like an unknown role. */
  function EndpointsDe(u: Option<Usuario>): (r: Option<(string, string)>)
    ensures r.Some? <==> u.Some? && RoleDe(u) in {"PROFESSOR", "ADMINISTRADOR", "SECRETARIA"}
  {
    if u.None? then None else Endpoints(RoleDe(u), u.value.id)
  }

  /** After a save whose reply echoes what was sent, the reloaded form shows
      the trimmed name, the sent email, birth date and notification flag, and
      the sent phone digits through the shared formatter. */
  lemma RegistroAposSalvar(
    dados: UserData, role: string, selecionadas: set<int>, resposta: Usuario,
    baseUrl: string, token: string, icone: string)
    requires var dto := MontarDto(dados, role, selecionadas);
      && resposta.nome == Some(dto.nome) && resposta.email == Some(dto.email)
      && resposta.idade == Some(dto.idade) && resposta.notificacaoAtiva == Some(dto.notificacaoAtiva)
    ensures var r := Registro(Some(Mesclado(resposta, MontarDto(dados, role, selecionadas))), baseUrl, token, icone);
      && r.nome == Trim(dados.nome)
      && r.email == dados.email
      && r.receberNotificacao == dados.receberNotificacao
      && (dados.dataNascimento != "" ==> r.dataNascimento == dados.dataNascimento)
      && r.telefone == Utils.FormatarTelefone(Some(Digits(dados.telefone)))
      && Digits(r.telefone) == Digits(dados.telefone)
  {
    var dto := MontarDto(dados, role, selecionadas);
    DigitsIdempotent(dados.telefone);
    assert Digits(dto.telefone) == Digits(dados.telefone);
  }

  /** The photo URL the saved record shows. */
  function UrlFoto(baseUrl: string, imageName: string, token: string): string {
    baseUrl + "/api/imagens/" + imageName + "?token=" + token
  }

  /** How a save ended. */
  datatype ResultadoSalvar =
    | SemAlteracoes
    | Falhou
    | Salvo(dto: UserDto, endpoint: string, exigeNovoLogin: bool)

  // ---------------------------------------------------------------------------
  // The editor

  class ProfileEditor {
    /** The signed-in user (`user` of the auth context); a save that changes
        the email signs the user out. */
    var usuario: Option<Usuario>
    var userData: UserData
    var originalData: UserData
    var selectedSpecialties: set<int>
    var originalSpecialties: set<int>
    var profileImage: Option<Arquivo>
    var previewUrl: Option<string>
    var hasChanged: bool

    /** The record's role is the signed-in user's (the load effect copies it
        and no handler edits it). */
    ghost predicate Valid()
      reads this
    {
      userData.role == RoleDe(usuario) && originalData.role == RoleDe(usuario)
    }

    /** The editor once the load effect has run for `u`, with the specialty
        set the professor was loaded with; nothing pending. */
    constructor (u: Option<Usuario>, especialidades: set<int>, baseUrl: string, token: string, icone: string)
      ensures Valid()
      ensures usuario == u
      ensures userData == Registro(u, baseUrl, token, icone) && originalData == userData
      ensures selectedSpecialties == especialidades && originalSpecialties == especialidades
      ensures profileImage == None && previewUrl == None && !hasChanged
    {
      usuario := u;
      var carregado := Registro(u, baseUrl, token, icone);
      userData, originalData := carregado, carregado;
      selectedSpecialties, originalSpecialties := especialidades, especialidades;
      profileImage, previewUrl := None, None;
      hasChanged := false;
    }

    /** The `hasChanged` effect. */
    method AtualizarAlteracao()
      modifies this`hasChanged
      ensures hasChanged == Alterado(userData, originalData, selectedSpecialties, originalSpecialties)
    {
      var dataChanged := userData != originalData;
      var specialtiesChanged := userData.role == Professor
        && (|selectedSpecialties| != |originalSpecialties|
            || !(forall id :: id in selectedSpecialties ==> id in originalSpecialties));
      hasChanged := dataChanged || specialtiesChanged;
    }

    /** `toggleSpecialty`. */
    method ToggleSpecialty(especialidadeId: int)
      requires Valid()
      modifies this`selectedSpecialties
      ensures Valid()
      ensures selectedSpecialties == AlternarEspecialidade(old(selectedSpecialties), especialidadeId)
    {
      var newSet := selectedSpecialties;
      if especialidadeId in newSet {
        newSet := newSet - {especialidadeId};
      } else {
        newSet := newSet + {especialidadeId};
      }
      selectedSpecialties := newSet;
    }

    /** `handleTelefoneChange`: the record's phone becomes the masked text. */
    method HandleTelefoneChange(value: string)
      requires Valid()
      modifies this`userData
      ensures Valid()
      ensures userData == old(userData).(telefone := MascaraTelefone(value))
    {
      userData := userData.(telefone := MascaraTelefone(value));
    }

    /** `handleFileChange`: a missing, non-image or over-5-MB file changes
        nothing; an accepted one becomes the pending image, and its object
        URL both the preview and the record's photo. */
    method HandleFileChange(file: Option<Arquivo>, objectUrl: string) returns (r: ResultadoArquivo)
      requires Valid()
      modifies this`profileImage, this`previewUrl, this`userData
      ensures Valid()
      ensures r == FotoSelecionada <==> file.Some? && ArquivoAceito(file.value)
      ensures r == NenhumArquivo <==> file.None?
      ensures r == FormatoInvalido <==> file.Some? && !StartsWith(file.value.tipo, "image/")
      ensures r == FotoSelecionada ==>
        profileImage == file && previewUrl == Some(objectUrl) && userData == old(userData).(foto := objectUrl)
      ensures r != FotoSelecionada ==>
        profileImage == old(profileImage) && previewUrl == old(previewUrl) && userData == old(userData)
    {
      if file.None? {
        return NenhumArquivo;
      }
      var f := file.value;
      if !StartsWith(f.tipo, "image/") {
        return FormatoInvalido;
      }
      if f.tamanho > 5 * 1024 * 1024 {
        return ArquivoMuitoGrande;
      }
      profileImage := file;
      previewUrl := Some(objectUrl);
      userData := userData.(foto := objectUrl);
      r := FotoSelecionada;
    }

    /** `cancelChanges`: back to the loaded record (photo included) and, for
        a professor, the loaded specialties; nothing pending; not dirty.
        Without a signed-in user, reading `user.role` throws right after the
        record is restored, so nothing else changes. */
    method CancelChanges()
      requires Valid()
      modifies this`userData, this`selectedSpecialties, this`previewUrl, this`profileImage, this`hasChanged
      ensures Valid()
      ensures userData == originalData
      ensures usuario.None? ==>
        && selectedSpecialties == old(selectedSpecialties) && profileImage == old(profileImage)
        && previewUrl == old(previewUrl) && hasChanged == old(hasChanged)
      ensures usuario.Some? ==>
        && selectedSpecialties == (if RoleDe(usuario) == Professor then originalSpecialties else old(selectedSpecialties))
        && profileImage == None && previewUrl == None && !hasChanged
        && !Alterado(userData, originalData, selectedSpecialties, originalSpecialties)
    {
      userData := originalData;
      if usuario.None? {
        return;
      }
      if RoleDe(usuario) == Professor {
        selectedSpecialties := originalSpecialties;
      }
      if previewUrl.Some? {
        previewUrl := None;
        userData := userData.(foto := originalData.foto);
      }
      profileImage := None;
      hasChanged := false;
    }

    /** `saveChanges`. `upload` is the stored name the upload request returns,
        None when it fails; `resposta` is the PATCH reply, None when the
        request fails. Nothing happens unless the editor is dirty; without a
        signed-in user or with an unknown role it fails before any request. A
        failed upload still saves the other data; a successful one clears the
        pending image even when the PATCH then fails. On success the signed-in
        user becomes the reply with the sent phone digits, or nobody when the
        email changed (a new login is needed), and the load effect rebuilds
        both records from that user. */
    method SaveChanges(upload: Option<string>, resposta: Option<Usuario>, baseUrl: string, token: string, icone: string)
      returns (r: ResultadoSalvar)
      requires Valid()
      modifies this
      ensures Valid()
      ensures !old(hasChanged) ==> r == SemAlteracoes
      ensures old(hasChanged) && EndpointsDe(old(usuario)).None? ==> r == Falhou
      ensures r.Salvo? <==> old(hasChanged) && EndpointsDe(old(usuario)).Some? && resposta.Some?
      ensures r.Salvo? ==>
        && r.endpoint == EndpointsDe(old(usuario)).value.0
        && r.dto == MontarDto(old(userData), RoleDe(old(usuario)), old(selectedSpecialties))
        && r.exigeNovoLogin == (old(userData).email != old(originalData).email)
        && usuario == (if r.exigeNovoLogin then None else Some(Mesclado(resposta.value, r.dto)))
        && userData == Registro(usuario, baseUrl, token, icone) && originalData == userData
        && originalSpecialties == selectedSpecialties
        && !hasChanged
      ensures !r.Salvo? ==>
        && usuario == old(usuario) && userData == old(userData) && originalData == old(originalData)
        && originalSpecialties == old(originalSpecialties) && hasChanged == old(hasChanged)
      ensures selectedSpecialties == old(selectedSpecialties)
      ensures var enviada := old(hasChanged) && EndpointsDe(old(usuario)).Some? && old(profileImage).Some? && upload.Some?;
        && profileImage == (if enviada then None else old(profileImage))
        && previewUrl == (if enviada then None else old(previewUrl))
    {
      if !hasChanged {
        return SemAlteracoes;
      }
      var emailChanged := userData.email != originalData.email;
      var endpoints := EndpointsDe(usuario);
      if endpoints.None? {
        return Falhou;
      }
      var (endpoint, endpointImg) := endpoints.value;
      // `${user.foto}` reads a missing name as "undefined".
      var imageName := EnviarImagem(upload, usuario.value.foto.GetOr("undefined"));
      var dto := MontarDto(userData, RoleDe(usuario), selectedSpecialties);
      if resposta.None? {
        return Falhou;
      }
      Concluir(userData.(foto := UrlFoto(baseUrl, imageName, token)),
        if emailChanged then None else Some(Mesclado(resposta.value, dto)), baseUrl, token, icone);
      r := Salvo(dto, endpoint, emailChanged);
    }

    /** The end of a successful save: the saved record is set, the signed-in
        user is replaced, and the load effect then rebuilds both records from
        the new user. */
    method Concluir(updatedData: UserData, novo: Option<Usuario>, baseUrl: string, token: string, icone: string)
      modifies this`userData, this`originalData, this`originalSpecialties, this`hasChanged, this`usuario
      ensures Valid()
      ensures usuario == novo
      ensures userData == Registro(novo, baseUrl, token, icone) && originalData == userData
      ensures originalSpecialties == selectedSpecialties && !hasChanged
    {
      Confirmar(updatedData);
      usuario := novo;
      Recarregar(baseUrl, token, icone);
    }

    /** The upload step of `saveChanges`: with a pending image and a stored
        name, that name is the new photo and the pending image is cleared;
        otherwise the current photo name is kept. */
    method EnviarImagem(upload: Option<string>, atual: string) returns (imageName: string)
      modifies this`profileImage, this`previewUrl
      ensures var enviada := old(profileImage).Some? && upload.Some?;
        && imageName == (if enviada then upload.value else atual)
        && profileImage == (if enviada then None else old(profileImage))
        && previewUrl == (if enviada then None else old(previewUrl))
    {
      imageName := atual;
      if profileImage.Some? {
        if upload.Some? {
          imageName := upload.value;
          previewUrl := None;
          profileImage := None;
        }
      }
    }

    /** A successful PATCH: the saved record becomes the loaded one, the
        chosen specialties the loaded ones, and the editor is clean. */
    method Confirmar(updatedData: UserData)
      modifies this`userData, this`originalData, this`originalSpecialties, this`hasChanged
      ensures userData == updatedData && originalData == updatedData
      ensures originalSpecialties == selectedSpecialties && !hasChanged
    {
      userData := updatedData;
      originalData := updatedData;
      originalSpecialties := selectedSpecialties;
      hasChanged := false;
    }

    /** The load effect, which runs again whenever the signed-in user
        changes: both records become the signed-in user's. */
    method Recarregar(baseUrl: string, token: string, icone: string)
      modifies this`userData, this`originalData
      ensures Valid()
      ensures userData == Registro(usuario, baseUrl, token, icone) && originalData == userData
    {
      var carregado := Registro(usuario, baseUrl, token, icone);
      userData, originalData := carregado, carregado;
    }
  }
}
