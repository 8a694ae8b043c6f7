/** The application root: the base URL the composition view talks to,
    built once from the stored server address. */
module App {
  import Storage
  import CustomPortPage

  const DefaultIp := "192.168.100.10"
  const DefaultPort := "8080"

  /** `http://${savedIP}:${savedPort}` with each part read from storage,
      falling back to its default when missing or empty. */
  function BaseUrl(items: map<string, string>): string {
    var savedIp := Storage.ItemOr(items, "serverIP", DefaultIp);
    var savedPort := Storage.ItemOr(items, "serverPort", DefaultPort);
    "http://" + savedIp + ":" + savedPort
  }

  /** The root component; its base URL is computed once, when it is created,
      and has no setter that is ever used. */
  class Root {
    const baseUrl: string

    constructor (storage: Storage.LocalStorage)
      ensures baseUrl == BaseUrl(storage.items)
    {
      baseUrl := BaseUrl(storage.items);
    }
  }

  /** With nothing stored, the base URL is the default server. */
  lemma DefaultBaseUrl(items: map<string, string>)
    requires "serverIP" !in items || items["serverIP"] == ""
    requires "serverPort" !in items || items["serverPort"] == ""
    ensures BaseUrl(items) == "http://192.168.100.10:8080"
  {
  }

  /** The root uses the same address the settings page starts from. */
  lemma BaseUrlMatchesSettingsPage(items: map<string, string>)
    ensures BaseUrl(items) == "http://" + CustomPortPage.InitialIp(items) + ":" + CustomPortPage.InitialPort(items)
  {
  }

  /** After accepted values are saved, the next start builds its base URL
      from exactly those texts: a valid dotted quad and a digits-only port. */
  lemma BaseUrlAfterSave(items: map<string, string>, ip: string, port: string)
    requires CustomPortPage.FormAccepts(ip, port)
    ensures BaseUrl(items[CustomPortPage.IpKey := ip][CustomPortPage.PortKey := port]) ==
      "http://" + ip + ":" + port
    ensures CustomPortPage.IsIpAddress(ip) && CustomPortPage.IsPort(port)
  {
  }
}
