/**
 * The repository query behind "list every parcel whose status is not one of
 * these": keep the rows whose status is outside the excluded list, in the
 * order the rows come in.
 */
module Consultas {
  import opened Encomendas

  /** Rows in strictly ascending id order: each parcel at most once, in store order. */
  ghost predicate IdsCrescentes(xs: seq<Encomenda>) {
    forall i, j :: 0 <= i < j < |xs| ==> xs[i].id < xs[j].id
  }

  /** `status NOT IN excluidos` over a list of rows. */
  function ExcluindoStatus(xs: seq<Encomenda>, excluidos: seq<StatusEncomenda>): (r: seq<Encomenda>)
    ensures forall e :: e in r <==> e in xs && e.status !in excluidos
    ensures |r| <= |xs|
    ensures IdsCrescentes(xs) ==> IdsCrescentes(r)
  {
    if xs == [] then []
    else if xs[0].status in excluidos then ExcluindoStatus(xs[1..], excluidos)
    else
      var resto := ExcluindoStatus(xs[1..], excluidos);
      assert IdsCrescentes(xs) ==> forall e :: e in resto ==> xs[0].id < e.id by {
        if IdsCrescentes(xs) {
          forall e | e in resto ensures xs[0].id < e.id {
            var k :| 0 <= k < |xs[1..]| && xs[1..][k] == e;
            assert xs[k + 1] == e;
          }
        }
      }
      [xs[0]] + resto
  }

  /** Excluding no status returns every row, in order. */
  lemma {:induction false} ExcluindoNadaMantemTudo(xs: seq<Encomenda>)
    ensures ExcluindoStatus(xs, []) == xs
  {
    if xs != [] {
      ExcluindoNadaMantemTudo(xs[1..]);
      assert xs == [xs[0]] + xs[1..];
    }
  }

  /** Excluding `a` and then `b` is excluding `a + b` in one query. */
  lemma {:induction false} ExclusoesCompoem(xs: seq<Encomenda>, a: seq<StatusEncomenda>, b: seq<StatusEncomenda>)
    ensures ExcluindoStatus(ExcluindoStatus(xs, a), b) == ExcluindoStatus(xs, a + b)
  {
    if xs != [] {
      ExclusoesCompoem(xs[1..], a, b);
      var x := xs[0];
      assert x.status in a + b <==> x.status in a || x.status in b;
      if x.status !in a {
        var resto := ExcluindoStatus(xs[1..], a);
        assert ([x] + resto)[1..] == resto;
      }
    }
  }

  /** Excluding Entregue and Cancelada leaves exactly the active parcels. */
  lemma ExcluirInativasDeixaAtivas(xs: seq<Encomenda>)
    ensures forall e :: e in ExcluindoStatus(xs, [Entregue, Cancelada]) <==> e in xs && Ativa(e)
  {
  }
}
