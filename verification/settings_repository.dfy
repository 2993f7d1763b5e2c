/** packages/daemon/src/store/repositories/SettingsRepository.js: the
    daemon's endpoint settings, held in a repository. */
module SettingsRepositories {
  import opened Repositories

  datatype SettingsValue = SettingsValue(bzzURL: string, pssURL: string, ethURL: string, ethChainID: int)

  /** The record defaults; chain 3 is Ropsten. */
  const DefaultSettings := SettingsValue(
    "http://swarm-gateways.net",
    "ws://localhost:8546",
    "https://ropsten.infura.io/KWLG1YOMaYgl4wiFlcJv",
    3)

  class SettingsRepository {
    const repo: Repository<SettingsValue>

    ghost predicate Valid()
      reads this, repo
    {
      repo.Valid()
    }

    constructor()
      ensures Valid() && fresh(repo)
      ensures repo.value == DefaultSettings && repo.emitted == [DefaultSettings]
    {
      repo := new Repository(DefaultSettings);
    }

    method SetBzzURL(url: string)
      requires Valid()
      modifies repo
      ensures Valid()
      ensures repo.UpdatedTo(old(repo.value).(bzzURL := url))
    {
      repo.Update((v: SettingsValue) => v.(bzzURL := url));
    }

    method SetPssURL(url: string)
      requires Valid()
      modifies repo
      ensures Valid()
      ensures repo.UpdatedTo(old(repo.value).(pssURL := url))
    {
      repo.Update((v: SettingsValue) => v.(pssURL := url));
    }

    method SetEthURL(url: string)
      requires Valid()
      modifies repo
      ensures Valid()
      ensures repo.UpdatedTo(old(repo.value).(ethURL := url))
    {
      repo.Update((v: SettingsValue) => v.(ethURL := url));
    }

    method SetEthChainID(id: int)
      requires Valid()
      modifies repo
      ensures Valid()
      ensures repo.UpdatedTo(old(repo.value).(ethChainID := id))
    {
      repo.Update((v: SettingsValue) => v.(ethChainID := id));
    }
  }

  /** Setting a field to the value it already holds publishes nothing, and
      a second identical setter call after a first never publishes again. */
  method SetTwice(settings: SettingsRepository, url: string)
    requires settings.Valid()
    modifies settings.repo
    ensures settings.Valid()
    ensures settings.repo.value == old(settings.repo.value).(bzzURL := url)
    ensures |settings.repo.emitted| <= |old(settings.repo.emitted)| + 1
  {
    settings.SetBzzURL(url);
    settings.SetBzzURL(url);
  }
}
