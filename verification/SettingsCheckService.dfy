/** The service that asks and answers settings checks, over its table of rows. */
module SettingsCheckServices {
  import opened Text
  import opened SettingsChecks

  class SettingsCheckService {
    var table: Table

    constructor ()
      ensures table == Table([], [])
    {
      table := Table([], []);
    }

    method CountThe(household: nat, since: int) returns (n: nat)
      ensures n == CountRecent(table.rows, household, since)
    {
      n := 0;
      for i := 0 to |table.rows|
        invariant n == CountRecent(table.rows[..i], household, since)
      {
        assert table.rows[..i + 1] == table.rows[..i] + [table.rows[i]];
        CountOneMore(table.rows[..i], table.rows[i], household, since);
        if table.rows[i].household == household && table.rows[i].at > since {
          n := n + 1;
        }
      }
      assert table.rows[..|table.rows|] == table.rows;
    }

    method IsRunning(household: nat, kind: Kind, now: int) returns (running: bool)
      ensures running == Running(table.rows, household, kind, now)
    {
      for i := 0 to |table.rows|
        invariant forall j :: 0 <= j < i ==> !Holds(table.rows[j], household, kind, now)
      {
        var r := table.rows[i];
        if r.household == household && r.kind == kind && r.result.None? && r.at > now - Hold(kind) {
          assert r in table.rows && Holds(r, household, kind, now);
          return true;
        }
      }
      return false;
    }

    /** A question for the worker, asked as an owner. */
    method Ask(owner: bool, household: nat, kind: Kind, now: int) returns (r: Answer<View>)
      modifies this
      ensures table == Asked(old(table), owner, household, kind, now)
      ensures r.Ok? <==> Refusal(old(table), owner, household, kind, now).None?
      ensures r.Err? ==> Refusal(old(table), owner, household, kind, now) == Some(r.error)
      ensures r.Ok? ==> r.value == View(|old(table).asked|, kind, now, Waiting)
    {
      hide CountRecent, Running;
      if !owner {
        return Err(Forbidden);
      }
      var recent := CountThe(household, now - MINUTE);
      if recent >= SETTINGS_CHECKS_PER_MINUTE {
        return Err(TooMany);
      }
      if kind == Mailbox || kind == LocalAi {
        var running := IsRunning(household, kind, now);
        if running {
          return Err(UnderWay(kind));
        }
      }
      var row := Row(|table.asked|, household, kind, now, None);
      table := Table(table.rows + [row], table.asked + [row]);
      r := Ok(ViewOf(row, now));
    }

    /** A check's view, for an owner of the household it is of; for anybody else there is none. */
    method Get(owner: bool, household: nat, id: nat, now: int) returns (r: Answer<View>)
      ensures !owner ==> r == Err(Forbidden)
      ensures r.Ok? ==> owner && exists row :: row in table.rows && row.id == id && row.household == household && r.value == ViewOf(row, now)
      ensures owner && r.Err? ==> r.error == NotFound && forall row :: row in table.rows && row.household == household ==> row.id != id
    {
      if !owner {
        return Err(Forbidden);
      }
      for i := 0 to |table.rows|
        invariant forall j :: 0 <= j < i ==> !(table.rows[j].id == id && table.rows[j].household == household)
      {
        if table.rows[i].id == id && table.rows[i].household == household {
          return Ok(ViewOf(table.rows[i], now));
        }
      }
      r := Err(NotFound);
    }

    method Answer(id: nat, result: string, now: int)
      modifies this
      ensures table == Found(old(table), id, result, now)
    {
      var rows := Answered(table.rows, id, result);
      table := table.(rows := Cleared(rows, now - SETTINGS_CHECK_KEEP_MS));
    }
  }
}
