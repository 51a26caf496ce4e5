/**
 * The interactive leaderboard menu: its custom id carries the requesting
 * user and the list length, and selecting a board re-renders the menu.
 */
module AnnonceClassement {
  import opened Commun
  import opened Texte

  const SelectCustomId: string := "lb-select"
  const LimiteParDefaut: int := 10

  function TitreComplet(t: TypeClassement): string
  {
    match t
    case Quotidien => "Classement quotidien"
    case Hebdomadaire => "Classement hebdomadaire"
    case Mensuel => "Classement mensuel"
    case Global => "Classement global"
  }

  function TitreCourt(t: TypeClassement): string
  {
    match t
    case Quotidien => "Jour"
    case Hebdomadaire => "Semaine"
    case Mensuel => "Mois"
    case Global => "Global"
  }

  /** The custom id: bare without an owner, else carrying the owner and the limit. */
  function ConstruireCustomId(ownerId: Option<string>, limite: int): string
  {
    if ownerId.Some? && ownerId.valeur != "" then SelectCustomId + "|" + ownerId.valeur + "|" + IntToString(limite)
    else SelectCustomId
  }

  datatype OptionMenu = OptionMenu(libelle: string, valeur: string, description: string, parDefaut: bool)

  datatype Menu = Menu(customId: string, options: seq<OptionMenu>)

  /** `construireMenu`: the four boards in fixed order, the active one marked as default. */
  function ConstruireMenu(typeActif: TypeClassement, ownerId: Option<string>, limite: int): (m: Menu)
    ensures m.customId == ConstruireCustomId(ownerId, limite)
    ensures |m.options| == |TypesClassement|
    ensures forall i :: 0 <= i < |m.options| ==>
              m.options[i].valeur == TypeTexte(TypesClassement[i]) && m.options[i].libelle == TitreComplet(TypesClassement[i])
              && (m.options[i].parDefaut <==> TypesClassement[i] == typeActif)
  {
    var options := seq(|TypesClassement|, i requires 0 <= i < |TypesClassement| =>
                     var t := TypesClassement[i];
                     OptionMenu(TitreComplet(t), TypeTexte(t), "Voir le classement " + Lower(TitreCourt(t)), t == typeActif));
    Menu(ConstruireCustomId(ownerId, limite), options)
  }

  datatype Parametres = Parametres(ownerId: Option<string>, limite: int)

  /** `extraireParametres`: the owner and a positive limit, 10 when absent or not a positive number. */
  function ExtraireParametres(customId: string): (r: Parametres)
    ensures r.limite > 0
    ensures Split(customId, '|')[0] != SelectCustomId ==> r == Parametres(None, LimiteParDefaut)
    ensures r.ownerId.Some? ==> '|' !in r.ownerId.valeur
  {
    var segments := Split(customId, '|');
    if segments[0] != SelectCustomId then Parametres(None, LimiteParDefaut)
    else
      var ownerId := if |segments| > 1 then Some(segments[1]) else None;
      var limite := if |segments| > 2 && segments[2] != "" then ParseInt(segments[2]) else Some(LimiteParDefaut);
      Parametres(ownerId, if limite.Some? && limite.valeur > 0 then limite.valeur else LimiteParDefaut)
  }

  /** The id of a user's menu gives back that user and limit. */
  lemma ExtraireConstruire(ownerId: string, limite: nat)
    requires ownerId != "" && '|' !in ownerId && limite > 0
    ensures ExtraireParametres(ConstruireCustomId(Some(ownerId), limite)) == Parametres(Some(ownerId), limite)
  {
    var parts := [SelectCustomId, ownerId, NatToString(limite)];
    assert '|' !in NatToString(limite) by {
      forall i | 0 <= i < |NatToString(limite)| ensures NatToString(limite)[i] != '|' {
        assert EstChiffre(NatToString(limite)[i]);
      }
    }
    assert parts[1..] == [ownerId, NatToString(limite)];
    assert [ownerId, NatToString(limite)][1..] == [NatToString(limite)];
    assert Join([ownerId, NatToString(limite)], '|') == ownerId + ['|'] + NatToString(limite);
    assert Join(parts, '|') == SelectCustomId + ['|'] + (ownerId + ['|'] + NatToString(limite));
    assert Join(parts, '|') == ConstruireCustomId(Some(ownerId), limite);
    SplitJoin(parts, '|');
    ParseIntNatToString(limite);
  }

  /** A menu id with an owner and a last segment splits back into its three parts. */
  lemma SegmentsCustomId(ownerId: string, fin: string)
    requires '|' !in ownerId && '|' !in fin
    ensures Split(SelectCustomId + "|" + ownerId + "|" + fin, '|') == [SelectCustomId, ownerId, fin]
  {
    var p := [SelectCustomId, ownerId, fin];
    assert p[1..] == [ownerId, fin] && [ownerId, fin][1..] == [fin];
    assert Join([ownerId, fin], '|') == ownerId + ['|'] + fin;
    assert Join(p, '|') == SelectCustomId + ['|'] + (ownerId + ['|'] + fin);
    assert Join(p, '|') == SelectCustomId + "|" + ownerId + "|" + fin;
    SplitJoin(p, '|');
  }

  /** Text starting with a letter has no number in it for `parseInt`. */
  lemma LectureSansChiffre(s: string)
    requires s != [] && !EstEspace(s[0]) && s[0] != '-' && s[0] != '+' && !EstChiffre(s[0])
    ensures ParseInt(s) == None
  {
    assert TrimStart(s) == s;
    assert PrefixeChiffres(s) == [];
  }

  lemma LectureAbc()
    ensures ParseInt("abc") == None
  {
    LectureSansChiffre("abc");
  }

  /** A limit that is not a number falls back to 10. */
  lemma LimiteNonNumerique(ownerId: string)
    requires ownerId != "" && '|' !in ownerId
    ensures ExtraireParametres(SelectCustomId + "|" + ownerId + "|abc").limite == LimiteParDefaut
  {
    SegmentsCustomId(ownerId, "abc");
    assert SelectCustomId + "|" + ownerId + "|abc" == SelectCustomId + "|" + ownerId + "|" + "abc";
    LectureAbc();
  }

  /** A zero limit falls back to 10. */
  lemma LimiteNulle(ownerId: string)
    requires ownerId != "" && '|' !in ownerId
    ensures ExtraireParametres(SelectCustomId + "|" + ownerId + "|0").limite == LimiteParDefaut
  {
    SegmentsCustomId(ownerId, "0");
    assert SelectCustomId + "|" + ownerId + "|0" == SelectCustomId + "|" + ownerId + "|" + "0";
    assert "0" == NatToString(0);
    ParseIntNatToString(0);
  }

  datatype IssueSelection =
    | Ignoree
    | ClassementInconnu
    | NonProprietaire
    | Affichage(typ: TypeClassement, limite: int, menu: Menu)

  /**
   * `traiterSelectionClassement`: ignores foreign menus, refuses an unknown
   * board and another user's menu, otherwise shows the chosen board with
   * the same owner and limit.
   */
  function TraiterSelectionClassement(customId: string, valeur: string, utilisateurId: string): (r: IssueSelection)
    ensures r.Ignoree? <==> !StartsWith(customId, SelectCustomId)
    ensures r.ClassementInconnu? <==> StartsWith(customId, SelectCustomId) && TypeDepuisTexte(valeur).None?
    ensures StartsWith(customId, SelectCustomId) && TypeDepuisTexte(valeur).Some? ==>
              (r.NonProprietaire? <==> var p := ExtraireParametres(customId); p.ownerId.Some? && p.ownerId.valeur != "" && p.ownerId.valeur != utilisateurId)
    ensures r.NonProprietaire? ==> StartsWith(customId, SelectCustomId) && TypeDepuisTexte(valeur).Some?
    ensures r.Affichage? ==> TypeTexte(r.typ) == valeur && r.limite == ExtraireParametres(customId).limite
    ensures r.Affichage? ==> r.menu == ConstruireMenu(r.typ, ExtraireParametres(customId).ownerId, r.limite)
  {
    if !StartsWith(customId, SelectCustomId) then Ignoree
    else
      var typ := TypeDepuisTexte(valeur);
      if typ.None? then ClassementInconnu
      else
        var p := ExtraireParametres(customId);
        if p.ownerId.Some? && p.ownerId.valeur != "" && p.ownerId.valeur != utilisateurId then NonProprietaire
        else Affichage(typ.valeur, p.limite, ConstruireMenu(typ.valeur, p.ownerId, p.limite))
  }

  /** A re-rendered menu of a user keeps its owner and limit for the next selection. */
  lemma SelectionConserveParametres(customId: string, valeur: string, utilisateurId: string)
    requires TraiterSelectionClassement(customId, valeur, utilisateurId).Affichage?
    requires ExtraireParametres(customId).ownerId.Some? && ExtraireParametres(customId).ownerId.valeur != ""
    ensures var r := TraiterSelectionClassement(customId, valeur, utilisateurId);
            ExtraireParametres(r.menu.customId) == ExtraireParametres(customId)
  {
    var p := ExtraireParametres(customId);
    ExtraireConstruire(p.ownerId.valeur, p.limite);
  }
}
